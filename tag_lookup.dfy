/**
 * The tag scan shared by the texture registry and the material catalog:
 * both walk their entries in insertion order and stop at the first entry
 * whose tag equals the one asked for, answering -1 when there is none.
 * Duplicate tags are allowed; a later duplicate is shadowed by the earlier
 * one, never overwrites it.
 */
module TagLookup {

  /** The tags of `s`, in order: the sequence a tag scan walks over. */
  function Tags<T>(s: seq<T>, tagOf: T -> string): (tags: seq<string>)
    ensures |tags| == |s|
    ensures forall i :: 0 <= i < |s| ==> tags[i] == tagOf(s[i])
  {
    seq(|s|, i requires 0 <= i < |s| => tagOf(s[i]))
  }

  /** The index of the first occurrence of `key` in `tags`, or -1. */
  function FirstMatch(tags: seq<string>, key: string): (r: int)
    ensures -1 <= r < |tags|
    ensures r >= 0 ==> tags[r] == key
    ensures forall j :: 0 <= j < |tags| && (r == -1 || j < r) ==> tags[j] != key
  {
    if |tags| == 0 then -1
    else if tags[0] == key then 0
    else
      var k := FirstMatch(tags[1..], key);
      if k == -1 then -1 else k + 1
  }

  /** Appending entries never changes an answer the old entries already give:
      a key found before is found at the same index, and a key that was
      missing is found in the appended part, offset by the old length. */
  lemma {:induction false} FirstMatchConcat(a: seq<string>, b: seq<string>, key: string)
    ensures FirstMatch(a + b, key) ==
      (if FirstMatch(a, key) != -1 then FirstMatch(a, key)
       else if FirstMatch(b, key) == -1 then -1
       else |a| + FirstMatch(b, key))
  {
    if a == [] {
      assert a + b == b;
    } else if a[0] == key {
      assert (a + b)[0] == key;
    } else {
      assert (a + b)[0] == a[0];
      assert (a + b)[1..] == a[1..] + b;
      FirstMatchConcat(a[1..], b, key);
    }
  }

  /** The special case of one appended tag, as one load or one push_back does. */
  lemma FirstMatchSnoc(a: seq<string>, t: string, key: string)
    ensures FirstMatch(a + [t], key) ==
      (if FirstMatch(a, key) != -1 then FirstMatch(a, key)
       else if t == key then |a|
       else -1)
  {
    FirstMatchConcat(a, [t], key);
  }
}
