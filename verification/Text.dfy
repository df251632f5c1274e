/** The C string routines that the IPC paths and the number parser rely on, on characters that may include the terminator. */
module Text {

  const NUL: char := '\0'

  /** A routine may read s for len characters, or up to its terminator. */
  predicate Readable(s: seq<char>, len: nat) {
    len <= |s| || NUL in s
  }

  /** Where the text ends. */
  function Length(s: seq<char>): (n: nat)
    requires NUL in s
    ensures n < |s| && s[n] == NUL && forall k :: 0 <= k < n ==> s[k] != NUL
  {
    if s[0] == NUL then 0 else Length(s[1..]) + 1
  }

  method StrLen(s: seq<char>) returns (n: nat)
    requires NUL in s
    ensures n == Length(s)
  {
    n := 0;
    while s[n] != NUL
      invariant n < |s| && forall k :: 0 <= k < n ==> s[k] != NUL
      decreases |s| - n
    {
      var k :| 0 <= k < |s| && s[k] == NUL;
      n := n + 1;
    }
  }

  /** The texts agree on their first k characters, and neither ends among them. */
  predicate Agree(l: seq<char>, r: seq<char>, k: nat) {
    k <= |l| && k <= |r| && forall j :: 0 <= j < k ==> l[j] == r[j] && l[j] != NUL
  }

  /** The texts do not differ before len or a common end. */
  ghost predicate Same(l: seq<char>, r: seq<char>, len: nat) {
    forall k :: 0 <= k < len && Agree(l, r, k) && k < |l| && k < |r| ==> l[k] == r[k]
  }

  method StrCmpL(l: seq<char>, r: seq<char>, len: nat) returns (c: int)
    requires Readable(l, len) && Readable(r, len)
    ensures c == 0 <==> Same(l, r, len)
    ensures c != 0 ==> exists k :: 0 <= k < len && Agree(l, r, k) && k < |l| && k < |r| && l[k] != r[k]
                                   && c == if l[k] > r[k] then -1 else 1
  {
    if len == 0 {
      return 0;
    }
    var s := 0;
    Bounds(l, len, 0);
    Bounds(r, len, 0);
    while l[s] == r[s] && l[s] != NUL && r[s] != NUL && s + 1 < len
      invariant s < len && s < |l| && s < |r| && Agree(l, r, s)
      decreases len - s
    {
      s := s + 1;
      Bounds(l, len, s);
      Bounds(r, len, s);
    }
    if l[s] == r[s] {
      forall k | 0 <= k < len && Agree(l, r, k) && k < |l| && k < |r|
        ensures l[k] == r[k]
      {
        assert k <= s;
      }
      return 0;
    }
    return if l[s] > r[s] then -1 else 1;
  }

  lemma Bounds(s: seq<char>, len: nat, k: nat)
    requires Readable(s, len) && k < len
    requires k <= |s| && forall j :: 0 <= j < k ==> s[j] != NUL
    ensures k < |s|
  {
  }

  method StrCmp(l: seq<char>, r: seq<char>) returns (c: int)
    requires NUL in l && NUL in r
    ensures c == 0 <==> l[..Length(l)] == r[..Length(r)]
  {
    var ll := StrLen(l);
    var rl := StrLen(r);
    if ll < rl {
      return 1;
    } else if ll > rl {
      return -1;
    }
    c := StrCmpL(l, r, ll);
    if c == 0 {
      AgreeingTexts(l, r, ll);
    }
  }

  lemma {:induction false} AgreeingTexts(l: seq<char>, r: seq<char>, n: nat)
    requires n <= |l| && n <= |r| && Same(l, r, n)
    requires forall k :: 0 <= k < n ==> l[k] != NUL
    ensures Agree(l, r, n)
  {
    if n > 0 {
      AgreeingTexts(l, r, n - 1);
      assert l[n - 1] == r[n - 1];
    }
  }

  /** At most len characters of s, without its terminator and what follows. */
  function Prefix(s: seq<char>, len: nat): seq<char>
    requires Readable(s, len)
  {
    if len == 0 || s[0] == NUL then [] else [s[0]] + Prefix(s[1..], len - 1)
  }

  lemma {:induction false} PrefixIs(s: seq<char>, len: nat, k: nat)
    requires Readable(s, len) && k <= len && k <= |s|
    requires forall j :: 0 <= j < k ==> s[j] != NUL
    requires k == len || (k < |s| && s[k] == NUL)
    ensures Prefix(s, len) == s[..k]
    decreases len
  {
    if k > 0 {
      PrefixIs(s[1..], len - 1, k - 1);
      assert s[..k] == [s[0]] + s[1..][..k - 1];
    }
  }

  method StrPrefix(s: seq<char>, len: nat, out: array<char>)
    requires Readable(s, len) && (len > 0 ==> len < out.Length)
    modifies out
    ensures len == 0 ==> out[..] == old(out[..])
    ensures len > 0 ==>
      var p := Prefix(s, len);
      && |p| <= len && out[..|p|] == p
      && (forall k :: |p| <= k <= len ==> out[k] == NUL)
      && out[len + 1..] == old(out[len + 1..])
  {
    if len == 0 {
      return;
    }
    for i := 0 to len + 1
      invariant forall k :: 0 <= k < i ==> out[k] == NUL
      invariant forall k :: i <= k < out.Length ==> out[k] == old(out[k])
    {
      out[i] := NUL;
    }
    var i := 0;
    while i < len
      invariant i <= len && i <= |s|
      invariant forall k :: 0 <= k < i ==> s[k] != NUL && out[k] == s[k]
      invariant forall k :: i <= k <= len ==> out[k] == NUL
      invariant forall k :: len < k < out.Length ==> out[k] == old(out[k])
    {
      Bounds(s, len, i);
      if s[i] == NUL {
        break;
      }
      out[i] := s[i];
      i := i + 1;
    }
    PrefixIs(s, len, i);
    assert out[..i] == s[..i];
  }
}
