/** The "basic URL" test that createJob and updateJob apply to a job's
    application link (jobController.js lines 28 and 92). Its regular
    expression reads: an optional `http://` or `https://`; a host of digits,
    lower-case letters, dots and dashes; a dot; a top-level part of two to six
    lower-case letters or dots; then any number of path characters (slash,
    word characters, space, dot, dash). The pattern repeats its path group and
    allows one more slash at the end, which adds nothing to "any number of
    path characters". */
module UrlPattern {
  import opened Text

  /** `[\da-z\.-]` */
  predicate HostChar(c: char) {
    ('0' <= c <= '9') || ('a' <= c <= 'z') || c == '.' || c == '-'
  }

  /** `[a-z\.]` */
  predicate TldChar(c: char) {
    ('a' <= c <= 'z') || c == '.'
  }

  /** `[\/\w \.-]`, where `\w` is `[A-Za-z0-9_]` */
  predicate PathChar(c: char) {
    c == '/' || ('A' <= c <= 'Z') || ('a' <= c <= 'z') || ('0' <= c <= '9') || c == '_'
    || c == ' ' || c == '.' || c == '-'
  }

  /** One way of reading `r` as host "." tld path: the dot that ends the
      host is at `i`, and the path starts at `j`. */
  ghost predicate SplitAt(r: string, i: int, j: int) {
    && 1 <= i
    && i + 3 <= j <= i + 7
    && j <= |r|
    && r[i] == '.'
    && (forall k :: 0 <= k < i ==> HostChar(r[k]))
    && (forall k :: i < k < j ==> TldChar(r[k]))
    && (forall k :: j <= k < |r| ==> PathChar(r[k]))
  }

  /** The regular language after the scheme: some reading exists, as the
      backtracking regex engine would find one. */
  ghost predicate HostTldPath(r: string) {
    exists i, j :: SplitAt(r, i, j)
  }

  /** The whole pattern, with its optional `http://` or `https://`. */
  ghost predicate UrlShape(s: string) {
    || HostTldPath(s)
    || (StartsWith(s, "http://") && HostTldPath(s[7..]))
    || (StartsWith(s, "https://") && HostTldPath(s[8..]))
  }

  /** Every character from `j` on is a path character. */
  function PathFrom(r: string, j: nat): (b: bool)
    requires j <= |r|
    ensures b <==> forall k :: j <= k < |r| ==> PathChar(r[k])
    decreases |r| - j
  {
    j == |r| || (PathChar(r[j]) && PathFrom(r, j + 1))
  }

  /** A reading with the host ending at `i` exists exactly when a dot
      stands at `i`, two tld characters follow and path characters follow
      them: taking the shortest tld is enough, as tld characters are path
      characters too. */
  lemma DotAt(r: string, i: nat)
    requires 1 <= i < |r|
    requires forall k :: 0 <= k < i ==> HostChar(r[k])
    ensures (exists j :: SplitAt(r, i, j)) <==>
      r[i] == '.' && i + 3 <= |r| && TldChar(r[i + 1]) && TldChar(r[i + 2]) && PathFrom(r, i + 3)
  {
    if j :| SplitAt(r, i, j) {
      forall k | i + 3 <= k < |r| ensures PathChar(r[k]) {
        if k < j { assert TldChar(r[k]); }
      }
    }
    if r[i] == '.' && i + 3 <= |r| && TldChar(r[i + 1]) && TldChar(r[i + 2]) && PathFrom(r, i + 3) {
      assert SplitAt(r, i, i + 3);
    }
  }

  /** Looks for the dot that ends the host at `i` or later, given that
      `r[..i]` is all host characters. */
  function ScanFrom(r: string, i: nat): (b: bool)
    requires 1 <= i <= |r|
    requires forall k :: 0 <= k < i ==> HostChar(r[k])
    ensures b <==> exists d, j :: i <= d && SplitAt(r, d, j)
    decreases |r| - i
  {
    if i == |r| then
      false
    else
      DotAt(r, i);
      if r[i] == '.' && i + 3 <= |r| && TldChar(r[i + 1]) && TldChar(r[i + 2]) && PathFrom(r, i + 3) then
        true
      else if HostChar(r[i]) then
        var found := ScanFrom(r, i + 1);
        assert (exists d, j :: i <= d && SplitAt(r, d, j)) ==> found by {
          if d, j :| i <= d && SplitAt(r, d, j) {
            assert i + 1 <= d;
          }
        }
        found
      else
        assert !exists d, j :: i <= d && SplitAt(r, d, j) by {
          if d, j :| i <= d && SplitAt(r, d, j) {
            assert false;
          }
        }
        false
  }

  /** Decides the language after the scheme. */
  function MatchesHostTldPath(r: string): (b: bool)
    ensures b <==> HostTldPath(r)
  {
    if |r| >= 1 && HostChar(r[0]) then
      ScanFrom(r, 1)
    else
      assert !HostTldPath(r) by {
        if i, j :| SplitAt(r, i, j) {
          assert false;
        }
      }
      false
  }

  /** `urlPattern.test(link)`. */
  function IsValidUrl(s: string): (b: bool)
    ensures b <==> UrlShape(s)
  {
    || MatchesHostTldPath(s)
    || (StartsWith(s, "http://") && MatchesHostTldPath(s[7..]))
    || (StartsWith(s, "https://") && MatchesHostTldPath(s[8..]))
  }

  /** A character that is in none of the classes, met anywhere after the
      scheme the link starts with (or anywhere, when it starts with none),
      rules the link out: `?`, `=`, `:`, `#`, `&`, `%` and so on. */
  lemma ForeignCharRejected(s: string, k: nat)
    requires k < |s|
    requires !HostChar(s[k]) && !PathChar(s[k])
    requires StartsWith(s, "http://") ==> 7 <= k
    requires StartsWith(s, "https://") ==> 8 <= k
    ensures !UrlShape(s)
  {
    forall off: nat | off <= k
      ensures !HostTldPath(s[off..])
    {
      var r := s[off..];
      assert r[k - off] == s[k];
      if i, j :| SplitAt(r, i, j) {
        assert false;
      }
    }
    assert !HostTldPath(s[0..]);
    assert s[0..] == s;
    if StartsWith(s, "http://") { assert !HostTldPath(s[7..]); }
    if StartsWith(s, "https://") { assert !HostTldPath(s[8..]); }
  }

  /** Without a dot after its first character, the text after the scheme is
      no host.tld. */
  lemma NoDotRejected(r: string)
    requires forall k :: 1 <= k < |r| ==> r[k] != '.'
    ensures !HostTldPath(r)
  {
    if i, j :| SplitAt(r, i, j) {
      assert r[i] == '.';
    }
  }

  /** A typical application link, `https://acme.com/apply`, is accepted. */
  lemma TypicalLinkAccepted()
    ensures UrlShape("https://acme.com/apply")
  {
    var r := "acme.com/apply";
    assert "https://acme.com/apply"[8..] == r;
    assert SplitAt(r, 4, 8);
  }

  /** The pattern is loose: four dots make a "URL". */
  lemma LooseShapeAccepted()
    ensures UrlShape("....")
  {
    assert SplitAt("....", 1, 4);
  }

  /** An upper-case host is refused. */
  lemma UpperCaseHostRejected()
    ensures !UrlShape("https://Acme.com")
  {
    var s := "https://Acme.com";
    assert s[5] == ':' && !HostChar(':') && !TldChar(':') && !PathChar(':');
    assert !HostTldPath(s) by {
      if i, j :| SplitAt(s, i, j) {
        assert false;
      }
    }
    assert !StartsWith(s, "http://") by { assert s[4] != "http://"[4]; }
    var r := s[8..];
    assert r[0] == 'A';
    assert !HostTldPath(r) by {
      if i, j :| SplitAt(r, i, j) { assert false; }
    }
  }
}
