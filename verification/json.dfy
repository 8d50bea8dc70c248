/**
  The JSON values that `encoding/json` produces for the MISP request
  structures: strings, integers and objects whose members keep the order of
  the Go struct fields. The byte-level encoding is not modelled; a request
  body is this tree.
 */
module Json {
  import opened Wrappers

  datatype Json =
    | JString(str: string)
    | JInt(num: int)
    | JObject(members: seq<(string, Json)>)

  /** The keys of an object's members, in order. */
  function Keys(members: seq<(string, Json)>): (ks: seq<string>)
    ensures |ks| == |members|
    ensures forall i :: 0 <= i < |members| ==> ks[i] == members[i].0
  {
    if members == [] then [] else [members[0].0] + Keys(members[1..])
  }

  /** The value of the first member named `key`, as a decoder looks it up. */
  function Member(members: seq<(string, Json)>, key: string): Option<Json> {
    if members == [] then None
    else if members[0].0 == key then Some(members[0].1)
    else Member(members[1..], key)
  }

  /** No two keys are the same, as in every object the encoder writes for a struct. */
  predicate Distinct(keys: seq<string>) {
    forall a, b :: 0 <= a < b < |keys| ==> keys[a] != keys[b]
  }

  /** When keys are distinct, looking up the key of any member finds that member. */
  lemma {:induction false} MemberOfDistinct(members: seq<(string, Json)>, i: nat)
    requires Distinct(Keys(members)) && i < |members|
    ensures Member(members, members[i].0) == Some(members[i].1)
  {
    if i > 0 {
      assert members[0].0 != members[i].0 by {
        assert Keys(members)[0] != Keys(members)[i];
      }
      assert members[1..][i - 1] == members[i];
      assert Distinct(Keys(members[1..])) by {
        forall a, b | 0 <= a < b < |members| - 1 ensures Keys(members[1..])[a] != Keys(members[1..])[b] {
          assert Keys(members)[a + 1] != Keys(members)[b + 1];
        }
      }
      MemberOfDistinct(members[1..], i - 1);
    }
  }

  /** The string held by member `key`, if there is one. */
  function StringMember(members: seq<(string, Json)>, key: string): Option<string> {
    match Member(members, key)
    case Some(JString(s)) => Some(s)
    case _ => None
  }

  /** The integer held by member `key`, if there is one. */
  function IntMember(members: seq<(string, Json)>, key: string): Option<int> {
    match Member(members, key)
    case Some(JInt(n)) => Some(n)
    case _ => None
  }
}
