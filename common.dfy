/** Values shared by the stores, the pages and the uploader. */
module Common {

  /** A value that may be absent (`null` / `undefined` in the application). */
  datatype Option<+T> = None | Some(value: T)

  /** The identity-provider user record, reduced to the fields the pages read. */
  datatype AuthUser = AuthUser(id: string, email: string)

  /** The three account roles of the `user_roles` table, as the auth hook types them. */
  datatype Role = Admin | User | Pending

  /** `s.split(c)[0]`: the text before the first `c`, or all of `s` when it
      holds no `c`. */
  function TakeUntil(s: string, c: char): (r: string)
    ensures c !in r
    ensures r <= s
    ensures |r| < |s| ==> s[|r|] == c
  {
    if s == [] || s[0] == c then [] else [s[0]] + TakeUntil(s[1..], c)
  }

  /** The text before the first separator is recovered from a join. */
  lemma {:induction false} TakeUntilJoin(a: string, c: char, b: string)
    requires c !in a
    ensures TakeUntil(a + [c] + b, c) == a
  {
    if a != [] {
      assert (a + [c] + b)[1..] == a[1..] + [c] + b;
      TakeUntilJoin(a[1..], c, b);
    }
  }

  /** Without a separator the whole text is kept. */
  lemma TakeUntilAbsent(s: string, c: char)
    requires c !in s
    ensures TakeUntil(s, c) == s
  {
  }
}
