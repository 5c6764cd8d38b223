/**
 * What connectSSH derives from the hostname text and the password before it
 * opens a client: the `user@host` split and the connection settings.
 */
module Target {
  import opened Wrappers

  const DefaultUser: string := "root"
  const SshPort: nat := 22
  const ReadyTimeoutMs: nat := 30000

  /** Position of the first `sep` in `s`. */
  function IndexOf(s: string, sep: char): (i: nat)
    requires sep in s
    ensures i < |s| && s[i] == sep && sep !in s[..i]
  {
    if s[0] == sep then 0 else 1 + IndexOf(s[1..], sep)
  }

  /** String.prototype.split with a one-character separator. */
  function Split(s: string, sep: char): (parts: seq<string>)
    ensures |parts| >= 1
    ensures forall k :: 0 <= k < |parts| ==> sep !in parts[k]
    ensures (sep in s) <==> |parts| >= 2
    decreases |s|
  {
    if sep in s then
      var i := IndexOf(s, sep);
      [s[..i]] + Split(s[i + 1..], sep)
    else
      [s]
  }

  /** Array.prototype.join, the inverse of Split. */
  function Join(parts: seq<string>, sep: char): string
    requires |parts| >= 1
  {
    if |parts| == 1 then parts[0] else parts[0] + [sep] + Join(parts[1..], sep)
  }

  /** Joining the parts of a split gives back the original text. */
  lemma {:induction false} JoinSplit(s: string, sep: char)
    ensures Join(Split(s, sep), sep) == s
    decreases |s|
  {
    if sep in s {
      var i := IndexOf(s, sep);
      JoinSplit(s[i + 1..], sep);
      assert Split(s, sep)[1..] == Split(s[i + 1..], sep);
      assert s == s[..i] + [sep] + s[i + 1..];
    }
  }

  /** Splitting text that is joined from separator-free parts gives the parts back. */
  lemma {:induction false} SplitJoin(parts: seq<string>, sep: char)
    requires |parts| >= 1
    requires forall k :: 0 <= k < |parts| ==> sep !in parts[k]
    ensures Split(Join(parts, sep), sep) == parts
    decreases |parts|
  {
    if |parts| > 1 {
      var p, tail := parts[0], parts[1..];
      var rest := Join(tail, sep);
      var s := p + ([sep] + rest);
      assert Join(parts, sep) == s;
      IndexOfAfterFree(p, [sep] + rest, sep);
      assert s[|p|] == sep;
      assert s[..|p|] == p;
      assert s[|p| + 1..] == rest;
      SplitJoin(tail, sep);
      assert Split(s, sep) == [p] + Split(rest, sep);
      assert parts == [p] + tail;
    }
  }

  /** The first separator of `a + b` is the first of `b` when `a` has none. */
  lemma {:induction false} IndexOfAfterFree(a: string, b: string, sep: char)
    requires sep !in a && b != [] && b[0] == sep
    ensures IndexOf(a + b, sep) == |a|
    decreases |a|
  {
    if a != [] {
      assert (a + b)[1..] == a[1..] + b;
      IndexOfAfterFree(a[1..], b, sep);
    }
  }

  /** The user and host a hostname text names. */
  datatype Target = Target(username: string, host: string)

  /**
   * connectSSH's split: without '@' the user is root and the host is the whole
   * text; otherwise the first two '@'-separated parts, the rest being dropped.
   */
  function SplitTarget(hostname: string): (t: Target)
    ensures '@' !in hostname ==> t == Target(DefaultUser, hostname)
    ensures '@' in hostname ==> '@' !in t.username && '@' !in t.host
  {
    if '@' in hostname then
      var parts := Split(hostname, '@');
      Target(parts[0], parts[1])
    else
      Target(DefaultUser, hostname)
  }

  /**
   * With '@' present, the user is the text before the first '@' and the host
   * is the text between the first and the second '@' (or the end).
   */
  lemma SplitTargetWithAt(hostname: string)
    requires '@' in hostname
    ensures var t := SplitTarget(hostname);
      var i := IndexOf(hostname, '@');
      && t.username == hostname[..i]
      && t.host <= hostname[i + 1..]
      && (|t.host| == |hostname| - i - 1 || hostname[i + 1 + |t.host|] == '@')
  {
    var i := IndexOf(hostname, '@');
    var rest := hostname[i + 1..];
    var parts := Split(hostname, '@');
    assert parts[1..] == Split(rest, '@');
    var host := parts[1];
    if '@' in rest {
      var j := IndexOf(rest, '@');
      assert host == rest[..j];
    } else {
      assert host == rest;
    }
  }

  /**
   * Text joined with '@' from '@'-free parts names the first part as its
   * user and the second as its host, whatever follows.
   */
  lemma SplitTargetRoundTrip(parts: seq<string>)
    requires |parts| >= 2
    requires forall k :: 0 <= k < |parts| ==> '@' !in parts[k]
    ensures SplitTarget(Join(parts, '@')) == Target(parts[0], parts[1])
  {
    SplitJoin(parts, '@');
  }

  /** The characters JavaScript's String.prototype.trim removes. */
  predicate IsJsWhitespace(c: char) {
    || c == '\t' || c == '\n' || c == '\U{0B}' || c == '\U{0C}' || c == '\r' || c == ' '
    || c == '\U{A0}' || c == '\U{1680}' || ('\U{2000}' <= c <= '\U{200A}')
    || c == '\U{2028}' || c == '\U{2029}' || c == '\U{202F}' || c == '\U{205F}'
    || c == '\U{3000}' || c == '\U{FEFF}'
  }

  function TrimStart(s: string): (r: string)
    ensures |r| <= |s| && r == s[|s| - |r|..]
    ensures forall k :: 0 <= k < |s| - |r| ==> IsJsWhitespace(s[k])
    ensures r == [] || !IsJsWhitespace(r[0])
  {
    if s != [] && IsJsWhitespace(s[0]) then TrimStart(s[1..]) else s
  }

  function TrimEnd(s: string): (r: string)
    ensures r <= s
    ensures forall k :: |r| <= k < |s| ==> IsJsWhitespace(s[k])
    ensures r == [] || !IsJsWhitespace(r[|r| - 1])
  {
    if s != [] && IsJsWhitespace(s[|s| - 1]) then TrimEnd(s[..|s| - 1]) else s
  }

  /** `r` is the slice of `s` at `i`, with only whitespace cut off either side. */
  predicate TrimmedAt(s: string, r: string, i: nat) {
    && i + |r| <= |s| && r == s[i..i + |r|]
    && (forall k :: 0 <= k < i ==> IsJsWhitespace(s[k]))
    && (forall k :: i + |r| <= k < |s| ==> IsJsWhitespace(s[k]))
  }

  /**
   * String.prototype.trim: the result is a slice of `s` that neither starts
   * nor ends with whitespace, and everything cut off either side is whitespace.
   */
  function Trim(s: string): (r: string)
    ensures r == [] || (!IsJsWhitespace(r[0]) && !IsJsWhitespace(r[|r| - 1]))
    ensures exists i :: TrimmedAt(s, r, i)
  {
    TrimSlice(s);
    TrimEnd(TrimStart(s))
  }

  /** The two halves of Trim cut whitespace only, at the ends. */
  lemma TrimSlice(s: string)
    ensures TrimmedAt(s, TrimEnd(TrimStart(s)), |s| - |TrimStart(s)|)
  {
    WhitespaceCutAtEnds(s, TrimStart(s), TrimEnd(TrimStart(s)));
  }

  /** Cutting whitespace from the front of `s`, then from the back, leaves a slice of `s`. */
  lemma WhitespaceCutAtEnds(s: string, p: string, r: string)
    requires |p| <= |s| && p == s[|s| - |p|..] && r <= p
    requires forall k :: 0 <= k < |s| - |p| ==> IsJsWhitespace(s[k])
    requires forall k :: |r| <= k < |p| ==> IsJsWhitespace(p[k])
    ensures TrimmedAt(s, r, |s| - |p|)
  {
    var i := |s| - |p|;
    assert r == s[i..i + |r|];
    forall k | i + |r| <= k < |s|
      ensures IsJsWhitespace(s[k])
    {
      assert s[k] == p[k - i];
    }
  }

  /** Trimming leaves nothing exactly when every character is whitespace. */
  lemma {:induction false} TrimEmpty(s: string)
    ensures Trim(s) == [] <==> forall k :: 0 <= k < |s| ==> IsJsWhitespace(s[k])
    decreases |s|
  {
    if s != [] {
      if IsJsWhitespace(s[0]) {
        TrimEmpty(s[1..]);
        assert forall k :: 1 <= k < |s| ==> s[k] == s[1..][k - 1];
      } else {
        TrimEndKeeps(s);
      }
    }
  }

  /** TrimEnd keeps a text whose first character is not whitespace non-empty. */
  lemma {:induction false} TrimEndKeeps(s: string)
    requires s != [] && !IsJsWhitespace(s[0])
    ensures TrimEnd(s) != []
    decreases |s|
  {
    if |s| > 1 && IsJsWhitespace(s[|s| - 1]) {
      TrimEndKeeps(s[..|s| - 1]);
    }
  }

  /** The settings sshClient.connect receives. */
  datatype ConnectConfig = ConnectConfig(
    host: string, port: nat, username: string, readyTimeout: nat, password: Option<string>)

  /** `password && password.trim()`: present and not only whitespace. */
  predicate HasPassword(password: Option<string>) {
    password.Some? && password.value != [] && Trim(password.value) != []
  }

  /**
   * The configuration connectSSH builds: port 22, a 30 second ready timeout,
   * and the password, untrimmed, only when it has a non-whitespace character.
   */
  function MakeConfig(t: Target, password: Option<string>): (cfg: ConnectConfig)
    ensures cfg.host == t.host && cfg.username == t.username
    ensures cfg.port == 22 && cfg.readyTimeout == 30000
    ensures cfg.password.Some? <==>
      (password.Some? && exists k :: 0 <= k < |password.value| && !IsJsWhitespace(password.value[k]))
    ensures cfg.password.Some? ==> cfg.password == password
  {
    TrimEmpty(if password.Some? then password.value else "");
    ConnectConfig(t.host, SshPort, t.username, ReadyTimeoutMs,
                  if HasPassword(password) then password else None)
  }
}
