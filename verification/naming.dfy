/** Lists whose entries each name something, a queue or a repository. */
module Naming {

  predicate Occurs<T>(list: seq<T>, name: T -> string, u: string) {
    exists i | 0 <= i < |list| :: name(list[i]) == u
  }

  lemma OccursSnoc<T>(list: seq<T>, name: T -> string, i: nat)
    requires i < |list|
    ensures forall u :: Occurs(list[..i + 1], name, u) <==> Occurs(list[..i], name, u) || u == name(list[i])
  {
    forall u
      ensures Occurs(list[..i + 1], name, u) <==> Occurs(list[..i], name, u) || u == name(list[i])
    {
      assert list[..i + 1][i] == list[i];
      if Occurs(list[..i], name, u) {
        var k :| 0 <= k < i && name(list[..i][k]) == u;
        assert list[..i + 1][k] == list[..i][k];
      }
      if Occurs(list[..i + 1], name, u) && u != name(list[i]) {
        var k :| 0 <= k < i + 1 && name(list[..i + 1][k]) == u;
        assert list[..i][k] == list[..i + 1][k];
      }
    }
  }
}
