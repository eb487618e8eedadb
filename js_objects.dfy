/** Plain JavaScript objects whose properties are strings, as the profile pages keep their
    form state. An object is its list of properties in insertion order, the order in which
    `JSON.stringify` writes them; the spread update `{ ...o, [k]: v }` is `Set`. */
module JsObjects {
  import opened Wrappers

  datatype Prop = Prop(key: string, value: string)

  type JsObject = seq<Prop>

  function Keys(o: JsObject): (ks: seq<string>)
    ensures |ks| == |o|
    ensures forall i :: 0 <= i < |o| ==> ks[i] == o[i].key
  {
    if o == [] then [] else [o[0].key] + Keys(o[1..])
  }

  /** JavaScript objects never hold a key twice. */
  predicate DistinctKeys(o: JsObject)
  {
    forall i, j :: 0 <= i < j < |o| ==> o[i].key != o[j].key
  }

  /** `o[k]`: `None` stands for `undefined`. */
  function Get(o: JsObject, k: string): (r: Option<string>)
    ensures r.Some? <==> k in Keys(o)
  {
    if o == [] then None
    else if o[0].key == k then Some(o[0].value)
    else Get(o[1..], k)
  }

  /** In an object with distinct keys, a key's value is the one stored beside it. */
  lemma {:induction false} GetAt(o: JsObject, i: nat)
    requires i < |o| && DistinctKeys(o)
    ensures Get(o, o[i].key) == Some(o[i].value)
  {
    if i > 0 {
      GetAt(o[1..], i - 1);
    }
  }

  /** `{ ...o, [k]: v }`: an existing key keeps its place and takes the new value,
      a new key goes last. */
  function Set(o: JsObject, k: string, v: string): (r: JsObject)
  {
    if o == [] then [Prop(k, v)]
    else if o[0].key == k then [Prop(k, v)] + o[1..]
    else [o[0]] + Set(o[1..], k, v)
  }

  /** After the spread update the key reads the new value. */
  lemma {:induction false} SetGet(o: JsObject, k: string, v: string)
    ensures Get(Set(o, k, v), k) == Some(v)
  {
    if o != [] && o[0].key != k {
      SetGet(o[1..], k, v);
    }
  }

  /** Updating a key the object holds keeps every key in its place. */
  lemma {:induction false} SetExisting(o: JsObject, k: string, v: string)
    requires k in Keys(o)
    ensures Keys(Set(o, k, v)) == Keys(o)
  {
    if o[0].key != k {
      assert Keys(o) == [o[0].key] + Keys(o[1..]);
      SetExisting(o[1..], k, v);
    }
  }

  /** Updating a key the object lacks appends it. */
  lemma {:induction false} SetFresh(o: JsObject, k: string, v: string)
    requires forall i :: 0 <= i < |o| ==> o[i].key != k
    ensures Set(o, k, v) == o + [Prop(k, v)]
  {
    if o != [] {
      var tail := o[1..];
      assert o[0].key != k;
      assert Set(o, k, v) == [o[0]] + Set(tail, k, v);
      assert forall i :: 0 <= i < |tail| ==> tail[i] == o[i + 1];
      SetFresh(tail, k, v);
      calc {
        Set(o, k, v);
        [o[0]] + Set(tail, k, v);
        [o[0]] + (tail + [Prop(k, v)]);
        { assert [o[0]] + tail == o; }
        o + [Prop(k, v)];
      }
    }
  }

  /** The spread update changes no other property. */
  lemma {:induction false} SetOther(o: JsObject, k: string, v: string, k': string)
    requires k' != k
    ensures Get(Set(o, k, v), k') == Get(o, k')
  {
    if o != [] && o[0].key != k {
      SetOther(o[1..], k, v, k');
    }
  }

  /** The spread update removes no key. */
  lemma SetKeepsKeys(o: JsObject, k: string, v: string, k': string)
    requires k' in Keys(o)
    ensures k' in Keys(Set(o, k, v))
  {
    var r := Set(o, k, v);
    if k in Keys(o) {
      SetExisting(o, k, v);
    } else {
      SetFresh(o, k, v);
      var i :| 0 <= i < |o| && Keys(o)[i] == k';
      assert Keys(r)[i] == r[i].key == o[i].key;
    }
  }

  /** The spread update keeps the keys distinct. */
  lemma SetDistinct(o: JsObject, k: string, v: string)
    requires DistinctKeys(o)
    ensures DistinctKeys(Set(o, k, v))
  {
    var r := Set(o, k, v);
    if k in Keys(o) {
      SetExisting(o, k, v);
      assert forall i :: 0 <= i < |r| ==> r[i].key == Keys(r)[i] == Keys(o)[i];
    } else {
      SetFresh(o, k, v);
    }
  }

  /** Setting a key to the value it already holds changes nothing. */
  lemma {:induction false} SetSame(o: JsObject, k: string)
    requires k in Keys(o)
    ensures Set(o, k, Get(o, k).value) == o
  {
    if o[0].key != k {
      SetSame(o[1..], k);
    }
  }

  /** The latest update of a key wins. */
  lemma {:induction false} SetSetSameKey(o: JsObject, k: string, v: string, w: string)
    ensures Set(Set(o, k, v), k, w) == Set(o, k, w)
  {
    if o != [] && o[0].key != k {
      SetSetSameKey(o[1..], k, v, w);
    }
  }
}
