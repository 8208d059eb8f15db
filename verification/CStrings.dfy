/** C strings: characters in a buffer, up to the first zero. */
module CStrings {

  /** A C string in a buffer: what stands before the first zero. */
  function StringIn(b: seq<char>): (s: string)
    requires '\0' in b
    ensures |s| < |b| && s <= b && b[|s|] == '\0' && '\0' !in s
  {
    if b[0] == '\0' then [] else [b[0]] + StringIn(b[1..])
  }

  lemma {:induction false} StringIs(b: seq<char>, s: string)
    requires |s| < |b| && s <= b && b[|s|] == '\0' && '\0' !in s
    ensures '\0' in b && StringIn(b) == s
  {
    if s != [] {
      assert b[0] == s[0] && s[0] in s;
      StringIs(b[1..], s[1..]);
    }
  }

  method Strlen(msg: array<char>) returns (n: nat)
    requires '\0' in msg[..]
    ensures n == |StringIn(msg[..])|
  {
    n := 0;
    while msg[n] != '\0'
      invariant n <= |StringIn(msg[..])|
      decreases msg.Length - n
    {
      n := n + 1;
    }
  }
}
