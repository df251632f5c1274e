/** The three kinds of IPC path, and how a query is matched against a registered path. */
module IpcPath {
  import Text

  const MAX_LENGTH: nat := 64
  const SEPARATOR: char := '/'
  const DIRECT_PREFIX: char := ':'
  const NOTIFICATION_PREFIX: char := '_'
  const SESSION_DESTROYED: string := "_/ipc/sd"

  predicate PathChar(c: char) {
    '0' <= c <= '9' || 'A' <= c <= 'Z' || 'a' <= c <= 'z' || c == SEPARATOR
  }

  /** Non-empty components of letters and digits, joined by single separators. */
  predicate GlobalPath(p: string) {
    && p != []
    && p[0] != SEPARATOR
    && p[|p| - 1] != SEPARATOR
    && (forall i :: 0 <= i < |p| ==> PathChar(p[i]))
    && (forall i :: 0 < i < |p| ==> !(p[i - 1] == SEPARATOR && p[i] == SEPARATOR))
  }

  predicate PrefixedPath(p: string, prefix: char) {
    |p| > 2 && p[0] == prefix && p[1] == SEPARATOR && GlobalPath(p[2..])
  }

  predicate DirectPath(p: string) {
    PrefixedPath(p, DIRECT_PREFIX)
  }

  predicate NotificationPath(p: string) {
    PrefixedPath(p, NOTIFICATION_PREFIX)
  }

  /** The lookup compares only as many characters as the query has. */
  predicate Matches(query: string, registered: string) {
    |query| <= |registered| && registered[..|query|] == query
  }

  // ---------------------------------------------------------------- the code that decides them

  method ValidateGlobal(path: string) returns (valid: bool)
    ensures valid <==> GlobalPath(path)
  {
    if path == [] {
      return false;
    }
    if path[0] == SEPARATOR {
      return false;
    }
    if path[|path| - 1] == SEPARATOR {
      return false;
    }
    var hasSeparator := false;
    var lastSeparatorIndex := 0;
    for i := 0 to |path|
      invariant forall k :: 0 <= k < i ==> PathChar(path[k])
      invariant forall k :: 0 < k < i ==> !(path[k - 1] == SEPARATOR && path[k] == SEPARATOR)
      invariant hasSeparator ==> 0 <= lastSeparatorIndex < i && path[lastSeparatorIndex] == SEPARATOR
      invariant forall k :: 0 <= k < i && path[k] == SEPARATOR ==> hasSeparator && k <= lastSeparatorIndex
    {
      if !PathChar(path[i]) {
        return false;
      }
      if path[i] == SEPARATOR {
        if lastSeparatorIndex == i - 1 && hasSeparator {
          return false;
        }
        hasSeparator := true;
        lastSeparatorIndex := i;
      }
    }
    valid := true;
  }

  method ValidatePrefixed(path: string, prefix: char) returns (valid: bool)
    ensures valid <==> PrefixedPath(path, prefix)
  {
    if |path| <= 2 {
      return false;
    }
    if path[0] != prefix {
      return false;
    }
    if path[1] != SEPARATOR {
      return false;
    }
    valid := ValidateGlobal(path[2..]);
  }

  /** No path is of two kinds, and none contains a terminator. */
  lemma KindsAreExclusive(p: string)
    ensures !(GlobalPath(p) && DirectPath(p)) && !(GlobalPath(p) && NotificationPath(p)) && !(DirectPath(p) && NotificationPath(p))
    ensures GlobalPath(p) || DirectPath(p) || NotificationPath(p) ==> Text.NUL !in p
  {
    if DirectPath(p) || NotificationPath(p) {
      assert !PathChar(p[0]);
      assert p == [p[0], p[1]] + p[2..];
    }
  }

  /** A listener's path as it is stored: filled up with terminators. */
  function Stored(path: string): string
    requires |path| <= MAX_LENGTH
  {
    path + seq(MAX_LENGTH - |path|, i => Text.NUL)
  }

  /** The comparison of the lookup finds nothing exactly when the query is the beginning of the stored path. */
  lemma ComparisonMatches(query: string, path: string)
    requires 0 < |query| <= MAX_LENGTH && |path| <= MAX_LENGTH
    requires Text.NUL !in query && Text.NUL !in path
    ensures Text.Same(query, Stored(path), |query|) <==> Matches(query, path)
  {
    var stored := Stored(path);
    if Text.Same(query, stored, |query|) {
      Text.AgreeingTexts(query, stored, |query|);
      var last := if |path| < |query| then |path| else |query| - 1;
      assert stored[last] == query[last] && query[last] in query;
      assert forall k :: 0 <= k < |query| ==> query[k] == stored[k] == path[k];
      assert path[..|query|] == query;
    }
    if Matches(query, path) {
      assert forall k :: 0 <= k < |query| ==> query[k] == path[..|query|][k] == stored[k];
    }
  }

  method MatchesStored(query: string, path: string) returns (found: bool)
    requires 0 < |query| <= MAX_LENGTH && |path| <= MAX_LENGTH
    requires Text.NUL !in query && Text.NUL !in path
    ensures found <==> Matches(query, path)
  {
    ComparisonMatches(query, path);
    var c := Text.StrCmpL(query, Stored(path), |query|);
    found := c == 0;
  }
}
