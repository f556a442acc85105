/** scilpy/version.py: the package version string built from its
    components, and the Python requirement built from the first line of
    the `.python-version` file (passed in as a string). */
module VersionInfo {
  import opened Common

  function DigitChar(d: nat): (c: char)
    requires d < 10
    ensures '0' <= c <= '9'
  {
    ['0', '1', '2', '3', '4', '5', '6', '7', '8', '9'][d]
  }

  /** `str(n)` for a non-negative integer: its decimal digits. */
  function NatToString(n: nat): (s: string)
    ensures |s| >= 1 && forall i :: 0 <= i < |s| ==> '0' <= s[i] <= '9'
  {
    if n < 10 then [DigitChar(n)] else NatToString(n / 10) + [DigitChar(n % 10)]
  }

  /** `sep.join(parts)` */
  function Join(sep: char, parts: seq<string>): string
  {
    if parts == [] then ""
    else if |parts| == 1 then parts[0]
    else parts[0] + [sep] + Join(sep, parts[1..])
  }

  /** `s.split(sep)`: the pieces between the separators, at least one. */
  function SplitOn(s: string, sep: char): (parts: seq<string>)
    ensures |parts| >= 1
    ensures forall i :: 0 <= i < |parts| ==> sep !in parts[i]
  {
    if s == [] then [""]
    else
      var rest := SplitOn(s[1..], sep);
      if s[0] == sep then [""] + rest
      else [[s[0]] + rest[0]] + rest[1..]
  }

  lemma {:induction false} SplitWithoutSeparator(s: string, sep: char)
    requires sep !in s
    ensures SplitOn(s, sep) == [s]
  {
    if s != [] {
      SplitWithoutSeparator(s[1..], sep);
      assert [s[0]] + s[1..] == s;
    }
  }

  lemma {:induction false} SplitAtSeparator(a: string, b: string, sep: char)
    requires sep !in a
    ensures SplitOn(a + [sep] + b, sep) == [a] + SplitOn(b, sep)
  {
    if a == [] {
      assert a + [sep] + b == [sep] + b;
      assert ([sep] + b)[1..] == b;
    } else {
      assert (a + [sep] + b)[1..] == a[1..] + [sep] + b;
      SplitAtSeparator(a[1..], b, sep);
      assert [a[0]] + a[1..] == a;
    }
  }

  /** Splitting a join gives back the pieces when none holds the separator. */
  lemma {:induction false} SplitJoin(parts: seq<string>, sep: char)
    requires |parts| >= 1
    requires forall i :: 0 <= i < |parts| ==> sep !in parts[i]
    ensures SplitOn(Join(sep, parts), sep) == parts
  {
    if |parts| == 1 {
      SplitWithoutSeparator(parts[0], sep);
    } else {
      SplitJoin(parts[1..], sep);
      SplitAtSeparator(parts[0], Join(sep, parts[1..]), sep);
      assert [parts[0]] + parts[1..] == parts;
    }
  }

  /** Joining the pieces of a split gives back the string. */
  lemma {:induction false} JoinSplit(s: string, sep: char)
    ensures Join(sep, SplitOn(s, sep)) == s
  {
    if s != [] {
      JoinSplit(s[1..], sep);
      var rest := SplitOn(s[1..], sep);
      if s[0] == sep {
        assert ([""] + rest)[1..] == rest;
      } else {
        var parts := [[s[0]] + rest[0]] + rest[1..];
        if |rest| > 1 {
          assert parts[1..] == rest[1..];
          assert rest == [rest[0]] + rest[1..];
        }
      }
    }
  }

  // ---------------------------------------------------------------------
  // __version__

  /** `_ver`: major and minor, then micro only when nonzero and extra only
      when nonempty, each through `str`. */
  function VersionParts(major: nat, minor: nat, micro: nat, extra: string): seq<string>
  {
    [NatToString(major), NatToString(minor)]
      + (if micro != 0 then [NatToString(micro)] else [])
      + (if extra != "" then [extra] else [])
  }

  /** `'.'.join(map(str, _ver))` */
  function VersionString(major: nat, minor: nat, micro: nat, extra: string): string
  {
    Join('.', VersionParts(major, minor, micro, extra))
  }

  /** `__version__` with the values the file sets. */
  const Version: string := VersionString(1, 6, 0, "")

  lemma VersionIsOneSix()
    ensures Version == "1.6"
  {
    assert NatToString(1) == "1" && NatToString(6) == "6";
    assert VersionParts(1, 6, 0, "") == ["1", "6"];
  }

  /** The version string splits back into its components: two to four of
      them, micro present exactly when nonzero and extra exactly when
      nonempty (an extra without dots). */
  lemma VersionComponents(major: nat, minor: nat, micro: nat, extra: string)
    requires '.' !in extra
    ensures var parts := SplitOn(VersionString(major, minor, micro, extra), '.');
      && parts == VersionParts(major, minor, micro, extra)
      && 2 <= |parts| <= 4
      && parts[..2] == [NatToString(major), NatToString(minor)]
      && |parts| == 2 + (if micro != 0 then 1 else 0) + (if extra != "" then 1 else 0)
  {
    var parts := VersionParts(major, minor, micro, extra);
    forall i | 0 <= i < |parts| ensures '.' !in parts[i] {
      if parts[i] != extra {
        var s := parts[i];
        assert forall j :: 0 <= j < |s| ==> '0' <= s[j] <= '9';
      }
    }
    SplitJoin(parts, '.');
  }

  // ---------------------------------------------------------------------
  // PYTHON_VERSION

  /** `s.lstrip("\n")` */
  function LStrip(s: string): (r: string)
    ensures |r| <= |s| && r == s[|s| - |r|..]
    ensures forall k :: 0 <= k < |s| - |r| ==> s[k] == '\n'
    ensures r == [] || r[0] != '\n'
  {
    if s != [] && s[0] == '\n' then LStrip(s[1..]) else s
  }

  /** `s.rstrip("\n")` */
  function RStrip(s: string): (r: string)
    ensures |r| <= |s| && r == s[..|r|]
    ensures forall k :: |r| <= k < |s| ==> s[k] == '\n'
    ensures r == [] || r[|r| - 1] != '\n'
  {
    if s != [] && s[|s| - 1] == '\n' then RStrip(s[..|s| - 1]) else s
  }

  /** `s.strip("\n")` */
  function Strip(s: string): string
  {
    RStrip(LStrip(s))
  }

  /** Stripping removes newlines at both ends and nothing else: the result
      is the slice of the line that starts after the leading newlines,
      everything outside it is a newline, and it neither starts nor ends
      with one. */
  lemma StripShape(s: string)
    ensures var r, i := Strip(s), |s| - |LStrip(s)|;
      && i + |r| <= |s| && s[i..i + |r|] == r
      && (forall k :: 0 <= k < i ==> s[k] == '\n')
      && (forall k :: i + |r| <= k < |s| ==> s[k] == '\n')
      && (r == [] || (r[0] != '\n' && r[|r| - 1] != '\n'))
  {
    var l := LStrip(s);
    var r := RStrip(l);
    SuffixPrefix(s, l, r, |s| - |l|);
  }

  /** A prefix `r` of the suffix `l` of `s` that starts at `i`, followed in
      `l` only by newlines, sits at `i` in `s` and is followed in `s` only by
      newlines. */
  lemma SuffixPrefix(s: string, l: string, r: string, i: nat)
    requires i <= |s| && l == s[i..] && |r| <= |l| && r == l[..|r|]
    requires forall k :: |r| <= k < |l| ==> l[k] == '\n'
    ensures i + |r| <= |s| && s[i..i + |r|] == r
    ensures forall k :: i + |r| <= k < |s| ==> s[k] == '\n'
  {
    forall k | i + |r| <= k < |s| ensures s[k] == '\n' {
      assert s[k] == l[k - i];
    }
  }

  /** The components `PYTHON_VERSION` keeps from the pieces of the line:
      major, minor, micro (`*` when missing) and a fourth piece when it
      exists and is nonempty. */
  function PythonComponents(parts: seq<string>): seq<string>
    requires |parts| >= 2
  {
    [parts[0], parts[1], if |parts| > 2 then parts[2] else "*"]
      + (if |parts| > 3 && parts[3] != "" then [parts[3]] else [])
  }

  /** `PYTHON_VERSION` from the first line of `.python-version`; a line
      without a dot has no minor version and raises `IndexError`. */
  function PythonVersion(line: string): (r: Result<string>)
    ensures r.Err? <==> '.' !in Strip(line)
    ensures r.Err? ==> r.error == IndexOutOfRange
    ensures r.Ok? ==> |r.value| >= 2 && r.value[..2] == "=="
  {
    var pyVersion := SplitOn(Strip(line), '.');
    if |pyVersion| < 2 then
      SplitJoinCount(Strip(line));
      Err(IndexOutOfRange)
    else
      SplitJoinCount(Strip(line));
      var pyMicro := if |pyVersion| > 2 then pyVersion[2] else "*";
      var pyExtra := if |pyVersion| > 3 then Some(pyVersion[3]) else None;
      var v := Join('.', [pyVersion[0], pyVersion[1], pyMicro]);
      var v2 := if pyExtra.Some? && pyExtra.value != "" then Join('.', [v, pyExtra.value]) else v;
      Ok("==" + v2)
  }

  /** A string splits into more than one piece exactly when it holds the
      separator. */
  lemma SplitJoinCount(s: string)
    ensures |SplitOn(s, '.')| >= 2 <==> '.' in s
  {
    if '.' !in s {
      SplitWithoutSeparator(s, '.');
    } else {
      var i :| 0 <= i < |s| && s[i] == '.';
      JoinSplit(s, '.');
    }
  }

  /** `PYTHON_VERSION` is `==` followed by the kept components joined with
      dots, and splits back into them: three, or four with a nonempty
      fourth piece; pieces after the fourth are dropped. */
  lemma PythonVersionComponents(line: string)
    requires '.' in Strip(line)
    ensures var parts := SplitOn(Strip(line), '.');
      && |parts| >= 2
      && PythonVersion(line) == Ok("==" + Join('.', PythonComponents(parts)))
      && SplitOn(PythonVersion(line).value[2..], '.') == PythonComponents(parts)
      && 3 <= |PythonComponents(parts)| <= 4
  {
    var parts := SplitOn(Strip(line), '.');
    SplitJoinCount(Strip(line));
    var comps := PythonComponents(parts);
    var v := Join('.', comps[..3]);
    assert comps[..3][1..][1..] == [comps[2]];
    if |comps| == 4 {
      JoinAppend(comps[..3], comps[3]);
      assert comps[..3] + [comps[3]] == comps;
    } else {
      assert comps[..3] == comps;
    }
    assert PythonVersion(line) == Ok("==" + Join('.', comps));
    assert ("==" + Join('.', comps))[2..] == Join('.', comps);
    assert "*" == ['*'];
    forall i | 0 <= i < |comps| ensures '.' !in comps[i] {
    }
    SplitJoin(comps, '.');
  }

  lemma {:induction false} JoinAppend(parts: seq<string>, last: string)
    requires |parts| >= 1
    ensures Join('.', parts + [last]) == Join('.', [Join('.', parts), last])
  {
    if |parts| > 1 {
      JoinAppend(parts[1..], last);
      assert (parts + [last])[1..] == parts[1..] + [last];
    }
  }

  /** A newline-free string followed by one newline strips back to itself. */
  lemma StripLine(s: string)
    requires '\n' !in s
    ensures Strip(s + "\n") == s
  {
    if s == [] {
      assert s + "\n" == "\n";
      assert LStrip("\n") == LStrip("");
    } else {
      assert (s + "\n")[0] == s[0];
      assert (s + "\n")[..|s|] == s;
      assert RStrip(s) == s by {
        assert s[|s| - 1] in s;
      }
    }
  }

  /** A character that is neither the separator nor in any piece is not in
      their join. */
  lemma {:induction false} JoinOmits(parts: seq<string>, sep: char, c: char)
    requires c != sep && forall i :: 0 <= i < |parts| ==> c !in parts[i]
    ensures c !in Join(sep, parts)
  {
    if |parts| > 1 {
      JoinOmits(parts[1..], sep, c);
    }
  }

  /** The `.python-version` line written as dotted pieces and a newline
      gives `==` and the kept pieces. */
  lemma PythonVersionOfLine(parts: seq<string>)
    requires |parts| >= 2
    requires forall i :: 0 <= i < |parts| ==> '.' !in parts[i] && '\n' !in parts[i]
    ensures PythonVersion(Join('.', parts) + "\n") == Ok("==" + Join('.', PythonComponents(parts)))
  {
    var s := Join('.', parts);
    JoinOmits(parts, '.', '\n');
    StripLine(s);
    SplitJoin(parts, '.');
    SplitJoinCount(s);
    PythonVersionComponents(s + "\n");
  }

  /** A bare `major.minor` line gets a `*` micro. */
  lemma PythonVersionStarMicro(major: string, minor: string)
    requires '.' !in major && '\n' !in major && '.' !in minor && '\n' !in minor
    ensures PythonVersion(Join('.', [major, minor]) + "\n") == Ok("==" + Join('.', [major, minor, "*"]))
  {
    PythonVersionOfLine([major, minor]);
    assert PythonComponents([major, minor]) == [major, minor, "*"];
  }

  /** Pieces after the fourth are dropped: a line with more than four
      pieces gives what its first four give. */
  lemma PythonVersionDropsTail(parts: seq<string>, more: seq<string>)
    requires |parts| == 4
    requires forall i :: 0 <= i < |parts + more| ==> '.' !in (parts + more)[i] && '\n' !in (parts + more)[i]
    ensures PythonVersion(Join('.', parts + more) + "\n") == PythonVersion(Join('.', parts) + "\n")
  {
    PythonVersionOfLine(parts + more);
    assert forall i :: 0 <= i < |parts| ==> parts[i] == (parts + more)[i];
    PythonVersionOfLine(parts);
    assert PythonComponents(parts + more) == PythonComponents(parts);
  }

  /** A line holding only a major version, without a dot, is refused. */
  lemma PythonVersionNeedsDot(major: string)
    requires '.' !in major && '\n' !in major
    ensures PythonVersion(major + "\n") == Err(IndexOutOfRange)
  {
    StripLine(major);
  }
}
