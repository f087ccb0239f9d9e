/** The handful of Python `str` operations the pipeline relies on, written
    out over `seq<char>`: `sub in s`, `s.startswith(p)`, `s.split(c)`,
    `c.join(xs)`, `s.strip()`, `s.lower()` and the way an f-string renders
    `None`. */
module Text {
  import opened Wrappers

  /** How an f-string renders an optional value: `None` becomes the text "None". */
  function Str(o: Option<string>): (r: string)
    ensures o.Some? ==> r == o.value
    ensures o.None? ==> r == "None"
  {
    match o
    case Some(s) => s
    case None => "None"
  }

  /** Python truthiness of an optional string: present and non-empty. */
  predicate Truthy(o: Option<string>) {
    o.Some? && o.value != ""
  }

  /** `prefix` starts `s` (Python `s.startswith(prefix)`). */
  predicate StartsWith(s: string, prefix: string) {
    prefix <= s
  }

  /** Python's `sub in s` on two strings: `sub` occurs somewhere in `s`. */
  predicate Contains(s: string, sub: string) {
    exists i | 0 <= i <= |s| - |sub| :: sub <= s[i..]
  }

  /** An occurrence of `sub` inside an occurrence of `mid` is an occurrence in `s`. */
  lemma ContainsTransitive(s: string, mid: string, sub: string)
    requires Contains(s, mid) && Contains(mid, sub)
    ensures Contains(s, sub)
  {
    var i :| 0 <= i <= |s| - |mid| && mid <= s[i..];
    var j :| 0 <= j <= |mid| - |sub| && sub <= mid[j..];
    assert sub <= s[i + j..] by {
      forall k | 0 <= k < |sub| ensures sub[k] == s[i + j + k] {
        assert sub[k] == mid[j + k];
        assert mid[j + k] == s[i + j + k];
      }
    }
  }

  /** Python's `sep.join(xs)` for a one-character separator. */
  function Join(xs: seq<string>, sep: char): string
  {
    if |xs| == 0 then ""
    else if |xs| == 1 then xs[0]
    else xs[0] + [sep] + Join(xs[1..], sep)
  }

  /** Python's `s.split(sep)` for a one-character separator: always at least
      one field (the empty string gives `[""]`), no field holds `sep`, and
      joining the fields back gives `s`. */
  function Split(s: string, sep: char): (r: seq<string>)
    ensures |r| >= 1
    ensures forall i | 0 <= i < |r| :: sep !in r[i]
    ensures Join(r, sep) == s
    decreases |s|
  {
    if s == [] then [""]
    else
      var rest := Split(s[1..], sep);
      if s[0] == sep then
        assert Join([""] + rest, sep) == [sep] + Join(rest, sep) by {
          assert ([""] + rest)[1..] == rest;
        }
        [""] + rest
      else
        var r := [[s[0]] + rest[0]] + rest[1..];
        assert r[1..] == rest[1..];
        assert Join(r, sep) == [s[0]] + Join(rest, sep) by {
          if |rest| > 1 {
            assert Join(rest, sep) == rest[0] + [sep] + Join(rest[1..], sep);
          }
        }
        assert s == [s[0]] + s[1..];
        r
  }

  /** A string without the separator is a single field. */
  lemma {:induction false} SplitWithoutSep(a: string, sep: char)
    requires sep !in a
    ensures Split(a, sep) == [a]
    decreases |a|
  {
    if a != [] {
      assert a[1..] == a[1..] && a[0] in a;
      assert sep !in a[1..] by {
        forall c | c in a[1..] ensures c != sep {
          var k :| 0 <= k < |a[1..]| && a[1..][k] == c;
          assert a[k + 1] == c;
        }
      }
      SplitWithoutSep(a[1..], sep);
      assert [a[0]] + a[1..] == a;
    }
  }

  /** Splitting `a + sep + b` with `sep` not in `a` peels `a` off as the first field. */
  lemma {:induction false} SplitFirstField(a: string, b: string, sep: char)
    requires sep !in a
    ensures Split(a + [sep] + b, sep) == [a] + Split(b, sep)
    decreases |a|
  {
    var s := a + [sep] + b;
    if a == [] {
      assert s[0] == sep && s[1..] == b;
    } else {
      assert s[0] == a[0] && s[1..] == a[1..] + [sep] + b;
      assert sep !in a[1..] by {
        forall c | c in a[1..] ensures c != sep {
          var k :| 0 <= k < |a[1..]| && a[1..][k] == c;
          assert a[k + 1] == c;
        }
      }
      SplitFirstField(a[1..], b, sep);
      assert [a[0]] + a[1..] == a;
    }
  }

  /** Join/split round trip: a non-empty list of fields that do not contain
      the separator is recovered by splitting its join. */
  lemma {:induction false} SplitJoin(xs: seq<string>, sep: char)
    requires |xs| >= 1
    requires forall i | 0 <= i < |xs| :: sep !in xs[i]
    ensures Split(Join(xs, sep), sep) == xs
    decreases |xs|
  {
    if |xs| == 1 {
      SplitWithoutSep(xs[0], sep);
    } else {
      SplitJoin(xs[1..], sep);
      SplitFirstField(xs[0], Join(xs[1..], sep), sep);
      assert [xs[0]] + xs[1..] == xs;
    }
  }

  /** The round trip fails for the empty list: joining gives "" and
      splitting "" gives one empty field. */
  lemma JoinEmptyDoesNotRoundTrip(sep: char)
    ensures Join([], sep) == ""
    ensures Split(Join([], sep), sep) == [""]
    ensures Split(Join([], sep), sep) != []
  {
  }

  /** The last field of `s.split(sep)`, i.e. `s.split(sep)[-1]`: the text after
      the last separator, or all of `s` when there is none. */
  function LastField(s: string, sep: char): (r: string)
  {
    var parts := Split(s, sep);
    parts[|parts| - 1]
  }

  /** `LastField` is the suffix of `s` after its last separator. */
  lemma {:induction false} LastFieldIsSuffix(s: string, sep: char)
    ensures sep !in LastField(s, sep)
    ensures |LastField(s, sep)| <= |s|
    ensures LastField(s, sep) == s[|s| - |LastField(s, sep)|..]
    ensures |LastField(s, sep)| < |s| ==> s[|s| - |LastField(s, sep)| - 1] == sep
    decreases |s|
  {
    var r := LastField(s, sep);
    if s != [] {
      LastFieldIsSuffix(s[1..], sep);
      var rest := Split(s[1..], sep);
      if s[0] == sep || |rest| > 1 {
        assert r == LastField(s[1..], sep);
      } else {
        assert r == [s[0]] + rest[0];
      }
    }
  }

  /** Without a separator, the last field is the whole string. */
  lemma LastFieldWithoutSep(s: string, sep: char)
    requires sep !in s
    ensures LastField(s, sep) == s
  {
    SplitWithoutSep(s, sep);
  }

  /** Python's `str.isspace()` characters, the ones `strip()` removes. */
  predicate IsSpace(c: char) {
    || c == ' ' || c == '\t' || c == '\n' || c == '\r'
    || c == '\U{000B}' || c == '\U{000C}'
    || ('\U{001C}' <= c <= '\U{001F}')
    || c == '\U{0085}' || c == '\U{00A0}' || c == '\U{1680}'
    || ('\U{2000}' <= c <= '\U{200A}')
    || c == '\U{2028}' || c == '\U{2029}' || c == '\U{202F}'
    || c == '\U{205F}' || c == '\U{3000}'
  }

  /** `s.lstrip()`: drop leading whitespace. */
  function TrimStart(s: string): (r: string)
    ensures |r| <= |s| && r == s[|s| - |r|..]
    ensures r == [] || !IsSpace(r[0])
    decreases |s|
  {
    if s != [] && IsSpace(s[0]) then TrimStart(s[1..]) else s
  }

  /** `lstrip()` drops only whitespace. */
  lemma {:induction false} TrimStartDropsSpace(s: string)
    ensures forall i | 0 <= i < |s| - |TrimStart(s)| :: IsSpace(s[i])
    decreases |s|
  {
    if s != [] && IsSpace(s[0]) {
      TrimStartDropsSpace(s[1..]);
      forall i | 0 <= i < |s| - |TrimStart(s)| ensures IsSpace(s[i]) {
        if i > 0 {
          assert s[i] == s[1..][i - 1];
        }
      }
    }
  }

  /** `s.rstrip()`: drop trailing whitespace. */
  function TrimEnd(s: string): (r: string)
    ensures |r| <= |s| && r == s[..|r|]
    ensures r == [] || !IsSpace(r[|r| - 1])
    decreases |s|
  {
    if s != [] && IsSpace(s[|s| - 1]) then TrimEnd(s[..|s| - 1]) else s
  }

  /** `rstrip()` drops only whitespace. */
  lemma {:induction false} TrimEndDropsSpace(s: string)
    ensures forall i | |TrimEnd(s)| <= i < |s| :: IsSpace(s[i])
    decreases |s|
  {
    if s != [] && IsSpace(s[|s| - 1]) {
      TrimEndDropsSpace(s[..|s| - 1]);
      forall i | |TrimEnd(s)| <= i < |s| ensures IsSpace(s[i]) {
        if i < |s| - 1 {
          assert s[i] == s[..|s| - 1][i];
        }
      }
    }
  }

  /** `s.strip()`: drops leading and trailing whitespace, so the result
      neither begins nor ends with whitespace, and a string that already
      does neither is kept as it is. */
  function Strip(s: string): (r: string)
    ensures |r| <= |s|
    ensures r == [] || (!IsSpace(r[0]) && !IsSpace(r[|r| - 1]))
    ensures (s == [] || (!IsSpace(s[0]) && !IsSpace(s[|s| - 1]))) ==> r == s
  {
    TrimEnd(TrimStart(s))
  }

  /** `c.lower()` for ASCII letters; every other character is kept. */
  function LowerChar(c: char): char {
    if 'A' <= c <= 'Z' then (c as int + 32) as char else c
  }

  /** `s.lower()`, character by character. */
  function Lower(s: string): (r: string)
    ensures |r| == |s|
    ensures forall i | 0 <= i < |s| :: r[i] == LowerChar(s[i])
  {
    seq(|s|, i requires 0 <= i < |s| => LowerChar(s[i]))
  }
}
