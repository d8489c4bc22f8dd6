/** Strings as the scripts use them: Python's `"\n".join`, `str.split("\n")`,
    ASCII case mapping, and the optional value of a `typing.Optional`. */
module Text {

  datatype Option<T> = None | Some(value: T)

  /** `s` holds no line feed. */
  predicate NoNewline(s: string) {
    '\n' !in s
  }

  predicate AllNoNewline(parts: seq<string>) {
    forall k :: 0 <= k < |parts| ==> NoNewline(parts[k])
  }

  predicate StartsWith(s: string, prefix: string) {
    |prefix| <= |s| && s[..|prefix|] == prefix
  }

  predicate EndsWith(s: string, suffix: string) {
    |suffix| <= |s| && s[|s| - |suffix|..] == suffix
  }

  /** Python's `"\n".join(parts)`. */
  function Join(parts: seq<string>): string
  {
    if |parts| == 0 then ""
    else if |parts| == 1 then parts[0]
    else parts[0] + "\n" + Join(parts[1..])
  }

  /** Python's `s.split("\n")`: the pieces between the line feeds, so there is
      always one piece more than there are line feeds. */
  function Split(s: string): (r: seq<string>)
    ensures |r| >= 1
    ensures AllNoNewline(r)
  {
    if |s| == 0 then [""]
    else if s[0] == '\n' then [""] + Split(s[1..])
    else
      var rest := Split(s[1..]);
      [[s[0]] + rest[0]] + rest[1..]
  }

  /** Joining two non-empty lists puts one line feed between their joins. */
  lemma {:induction false} JoinAppend(a: seq<string>, b: seq<string>)
    requires |a| > 0 && |b| > 0
    ensures Join(a + b) == Join(a) + "\n" + Join(b)
  {
    assert (a + b)[0] == a[0];
    if |a| == 1 {
      assert (a + b)[1..] == b;
    } else {
      assert (a + b)[1..] == a[1..] + b;
      JoinAppend(a[1..], b);
    }
  }

  /** Appending one piece appends a line feed and that piece. */
  lemma JoinSnoc(parts: seq<string>, x: string)
    requires |parts| > 0
    ensures Join(parts + [x]) == Join(parts) + "\n" + x
  {
    JoinAppend(parts, [x]);
  }

  lemma Join3(a: string, b: string, c: string)
    ensures Join([a, b, c]) == a + "\n" + b + "\n" + c
  {
    assert [a, b, c][1..] == [b, c];
    assert [b, c][1..] == [c];
    assert Join([b, c]) == b + "\n" + c;
    assert a + "\n" + (b + "\n" + c) == a + "\n" + b + "\n" + c;
  }

  lemma Join4(a: string, b: string, c: string, d: string)
    ensures Join([a, b, c, d]) == a + "\n" + b + "\n" + c + "\n" + d
  {
    assert [a, b, c, d][1..] == [b, c, d];
    Join3(b, c, d);
    assert a + "\n" + (b + "\n" + c + "\n" + d) == a + "\n" + b + "\n" + c + "\n" + d;
  }

  /** A string without line feeds splits into itself alone. */
  lemma {:induction false} SplitNoNewline(s: string)
    requires NoNewline(s)
    ensures Split(s) == [s]
  {
    if |s| > 0 {
      assert NoNewline(s[1..]) by {
        forall k | 0 <= k < |s[1..]| ensures s[1..][k] != '\n' {
          assert s[1..][k] == s[k + 1];
        }
      }
      SplitNoNewline(s[1..]);
      assert [s[0]] + s[1..] == s;
    }
  }

  /** A first line without line feeds, then a line feed, splits off as the first piece. */
  lemma {:induction false} SplitLine(a: string, b: string)
    requires NoNewline(a)
    ensures Split(a + "\n" + b) == [a] + Split(b)
  {
    var s := a + "\n" + b;
    if |a| == 0 {
      assert s == "\n" + b;
      assert s[1..] == b;
    } else {
      assert s[0] == a[0] != '\n';
      assert s[1..] == a[1..] + "\n" + b;
      assert NoNewline(a[1..]) by {
        forall k | 0 <= k < |a[1..]| ensures a[1..][k] != '\n' {
          assert a[1..][k] == a[k + 1];
        }
      }
      SplitLine(a[1..], b);
      assert [a[0]] + a[1..] == a;
    }
  }

  /** Four lines without line feeds come back as the first four pieces,
      whatever follows them. */
  lemma SplitFourLines(a: string, b: string, c: string, d: string, tail: string)
    requires NoNewline(a) && NoNewline(b) && NoNewline(c) && NoNewline(d)
    ensures var pieces := Split(a + "\n" + (b + "\n" + (c + "\n" + (d + "\n" + tail))));
      |pieces| >= 4 && pieces[..4] == [a, b, c, d]
  {
    SplitLine(a, b + "\n" + (c + "\n" + (d + "\n" + tail)));
    SplitLine(b, c + "\n" + (d + "\n" + tail));
    SplitLine(c, d + "\n" + tail);
    SplitLine(d, tail);
    var pieces := [a] + ([b] + ([c] + ([d] + Split(tail))));
    assert pieces[..4] == [a, b, c, d];
  }

  /** Splitting undoes joining, provided no piece holds a line feed. */
  lemma {:induction false} SplitJoin(parts: seq<string>)
    requires |parts| >= 1 && AllNoNewline(parts)
    ensures Split(Join(parts)) == parts
  {
    if |parts| == 1 {
      SplitNoNewline(parts[0]);
    } else {
      SplitLine(parts[0], Join(parts[1..]));
      SplitJoin(parts[1..]);
      assert [parts[0]] + parts[1..] == parts;
    }
  }

  /** Gluing a character onto the first piece glues it onto the join. */
  lemma {:induction false} JoinConsFirst(c: char, rest: seq<string>)
    requires |rest| >= 1
    ensures Join([[c] + rest[0]] + rest[1..]) == [c] + Join(rest)
  {
    var r := [[c] + rest[0]] + rest[1..];
    assert |r| == |rest| && r[0] == [c] + rest[0];
    if |rest| > 1 {
      assert r[1..] == rest[1..];
      assert ([c] + rest[0]) + "\n" + Join(rest[1..]) == [c] + (rest[0] + "\n" + Join(rest[1..]));
    }
  }

  /** Joining undoes splitting, for every string. */
  lemma {:induction false} JoinSplit(s: string)
    ensures Join(Split(s)) == s
  {
    if |s| == 0 {
    } else if s[0] == '\n' {
      var tail := Split(s[1..]);
      JoinSplit(s[1..]);
      assert ([""] + tail)[1..] == tail;
      assert "" + "\n" + s[1..] == s;
    } else {
      JoinSplit(s[1..]);
      JoinConsFirst(s[0], Split(s[1..]));
      assert [s[0]] + s[1..] == s;
    }
  }

  /** The embedded argument of a one-argument call `callee('arg');`, read back. */
  function CallArgument(callee: string, stmt: string): Option<string> {
    var head := callee + "('";
    if |head| + 3 <= |stmt| && stmt[..|head|] == head && stmt[|stmt| - 3..] == "');"
    then Some(stmt[|head|..|stmt| - 3])
    else None
  }

  lemma CallArgumentOf(callee: string, arg: string)
    ensures CallArgument(callee, callee + "('" + arg + "');") == Some(arg)
  {
    var stmt := callee + "('" + arg + "');";
    var head := callee + "('";
    assert stmt[..|head|] == head;
    assert stmt[|stmt| - 3..] == "');";
    assert stmt[|head|..|stmt| - 3] == arg;
  }

  /** Python's `str.lower()` on one character, for the ASCII letters. */
  function LowerChar(c: char): char {
    if 'A' <= c <= 'Z' then (c as int + 32) as char else c
  }

  function UpperChar(c: char): char {
    if 'a' <= c <= 'z' then (c as int - 32) as char else c
  }

  /** Python's `str.lower()`, for the ASCII letters. */
  function AsciiLower(s: string): (r: string)
    ensures |r| == |s|
    ensures forall i :: 0 <= i < |s| ==> r[i] == LowerChar(s[i])
  {
    if |s| == 0 then "" else [LowerChar(s[0])] + AsciiLower(s[1..])
  }

  predicate IsLowerWord(w: string) {
    forall i :: 0 <= i < |w| ==> 'a' <= w[i] <= 'z'
  }

  /** `a` spells the lower-case word `w` with each letter in either case. */
  predicate CaseVariant(a: string, w: string) {
    |a| == |w| && forall i :: 0 <= i < |a| ==> a[i] == w[i] || a[i] == UpperChar(w[i])
  }

  /** Lower-casing gives a lower-case word exactly when the input is that word in mixed case. */
  lemma LowerIsWordIff(a: string, w: string)
    requires IsLowerWord(w)
    ensures AsciiLower(a) == w <==> CaseVariant(a, w)
  {
    if AsciiLower(a) == w {
      forall i | 0 <= i < |a| ensures a[i] == w[i] || a[i] == UpperChar(w[i]) {
        assert LowerChar(a[i]) == w[i];
      }
    }
    if CaseVariant(a, w) {
      forall i | 0 <= i < |a| ensures AsciiLower(a)[i] == w[i] {
        assert LowerChar(a[i]) == w[i];
      }
    }
  }
}
