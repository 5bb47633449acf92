/** The JavaScript string operations that the account code leans on:
    `toLowerCase`, `trim` and `split` on a one-character separator. */
module Text {

  /** The WhiteSpace and LineTerminator code points that ECMAScript's
      `String.prototype.trim` strips from both ends. */
  predicate IsSpace(c: char) {
    || c == '\t' || c == '\n' || c == '\U{0B}' || c == '\U{0C}' || c == '\r' || c == ' '
    || c == '\U{A0}' || c == '\U{1680}' || ('\U{2000}' <= c <= '\U{200A}')
    || c == '\U{2028}' || c == '\U{2029}' || c == '\U{202F}' || c == '\U{205F}'
    || c == '\U{3000}' || c == '\U{FEFF}'
  }

  predicate IsUpperAscii(c: char) { 'A' <= c <= 'Z' }

  predicate IsLowerAscii(c: char) { 'a' <= c <= 'z' }

  predicate IsDigit(c: char) { '0' <= c <= '9' }

  function ToLowerChar(c: char): (d: char)
    ensures !IsUpperAscii(d)
    ensures IsSpace(d) == IsSpace(c)
    ensures IsUpperAscii(c) ==> IsLowerAscii(d)
  {
    if IsUpperAscii(c) then (c as int + 32) as char else c
  }

  /** `s.toLowerCase()` on the ASCII letters; every other character is kept. */
  function ToLower(s: string): string {
    seq(|s|, i requires 0 <= i < |s| => ToLowerChar(s[i]))
  }

  /** Lowering twice is lowering once. */
  lemma ToLowerIdempotent(s: string)
    ensures ToLower(ToLower(s)) == ToLower(s)
    ensures forall i :: 0 <= i < |s| ==> !IsUpperAscii(ToLower(s)[i])
  {
  }

  /** Lowering leaves a string without ASCII uppercase letters alone. */
  lemma ToLowerFixesNoUpper(s: string)
    requires forall k :: 0 <= k < |s| ==> !IsUpperAscii(s[k])
    ensures ToLower(s) == s
  {
  }

  /** Drops the leading `trim` characters. */
  function TrimStart(s: string): string {
    if s != [] && IsSpace(s[0]) then TrimStart(s[1..]) else s
  }

  /** Drops the trailing `trim` characters. */
  function TrimEnd(s: string): string {
    if s != [] && IsSpace(s[|s| - 1]) then TrimEnd(s[..|s| - 1]) else s
  }

  /** `TrimStart` removes exactly the maximal run of leading spaces. */
  lemma {:induction false} TrimStartSpec(s: string)
    ensures |TrimStart(s)| <= |s| && TrimStart(s) == s[|s| - |TrimStart(s)|..]
    ensures forall i :: 0 <= i < |s| - |TrimStart(s)| ==> IsSpace(s[i])
    ensures TrimStart(s) == [] || !IsSpace(TrimStart(s)[0])
  {
    if s != [] && IsSpace(s[0]) {
      var rest := s[1..];
      TrimStartSpec(rest);
      var t := TrimStart(rest);
      assert TrimStart(s) == t;
      assert rest[|rest| - |t|..] == s[|s| - |t|..];
      forall i | 0 <= i < |s| - |t| ensures IsSpace(s[i]) {
        if i > 0 {
          assert s[i] == rest[i - 1];
        }
      }
    }
  }

  /** `TrimEnd` removes exactly the maximal run of trailing spaces. */
  lemma {:induction false} TrimEndSpec(s: string)
    ensures |TrimEnd(s)| <= |s| && TrimEnd(s) == s[..|TrimEnd(s)|]
    ensures forall i :: |TrimEnd(s)| <= i < |s| ==> IsSpace(s[i])
    ensures TrimEnd(s) == [] || !IsSpace(TrimEnd(s)[|TrimEnd(s)| - 1])
  {
    if s != [] && IsSpace(s[|s| - 1]) {
      var rest := s[..|s| - 1];
      TrimEndSpec(rest);
      var t := TrimEnd(rest);
      assert TrimEnd(s) == t;
      assert rest[..|t|] == s[..|t|];
      forall i | |t| <= i < |s| ensures IsSpace(s[i]) {
        if i < |s| - 1 {
          assert s[i] == rest[i];
        }
      }
    }
  }

  /** `s.trim()`. */
  function Trim(s: string): string {
    TrimEnd(TrimStart(s))
  }

  /** A string that `trim` would change: it starts or ends with a space. */
  predicate Padded(s: string) {
    s != [] && (IsSpace(s[0]) || IsSpace(s[|s| - 1]))
  }

  /** The result of `trim` is a slice of its input, cut only at spaces. */
  lemma TrimSlice(s: string)
    ensures |TrimStart(s)| <= |s|
    ensures var i := |s| - |TrimStart(s)|;
            && i + |Trim(s)| <= |s| && Trim(s) == s[i..i + |Trim(s)|]
            && (forall k :: 0 <= k < i ==> IsSpace(s[k]))
            && (forall k :: i + |Trim(s)| <= k < |s| ==> IsSpace(s[k]))
  {
    var t := TrimStart(s);
    var e := TrimEnd(t);
    assert |t| <= |s| && t == s[|s| - |t|..] && forall k :: 0 <= k < |s| - |t| ==> IsSpace(s[k]) by {
      TrimStartSpec(s);
    }
    assert |e| <= |t| && e == t[..|e|] && forall k :: |e| <= k < |t| ==> IsSpace(t[k]) by {
      TrimEndSpec(t);
    }
    var i := |s| - |t|;
    assert e == s[i..i + |e|];
    forall k | i + |e| <= k < |s| ensures IsSpace(s[k]) {
      assert s[k] == t[k - i];
    }
  }

  /** The result of `trim` is not itself padded. */
  lemma TrimUnpadded(s: string)
    ensures !Padded(Trim(s))
  {
    var t := TrimStart(s);
    TrimStartSpec(s);
    TrimEndSpec(t);
    var e := TrimEnd(t);
    assert e == [] || e[0] == t[0];
  }

  /** `trim` leaves a string alone exactly when it is not padded. */
  lemma TrimFixesExactlyUnpadded(s: string)
    ensures Trim(s) == s <==> !Padded(s)
  {
    TrimUnpadded(s);
    if !Padded(s) {
      assert TrimStart(s) == s;
      assert TrimEnd(s) == s;
    }
  }

  /** `trim` brings in no character: a string without an ASCII uppercase
      letter keeps none once trimmed. */
  lemma TrimKeepsNoUpper(s: string)
    requires forall k :: 0 <= k < |s| ==> !IsUpperAscii(s[k])
    ensures forall k :: 0 <= k < |Trim(s)| ==> !IsUpperAscii(Trim(s)[k])
  {
    TrimSlice(s);
    var i := |s| - |TrimStart(s)|;
    forall k | 0 <= k < |Trim(s)| ensures Trim(s)[k] == s[i + k] {
    }
  }

  /** Trimming twice is trimming once. */
  lemma TrimIdempotent(s: string)
    ensures Trim(Trim(s)) == Trim(s)
  {
    TrimUnpadded(s);
    TrimFixesExactlyUnpadded(Trim(s));
  }

  lemma {:induction false} ToLowerTrimStart(s: string)
    ensures ToLower(TrimStart(s)) == TrimStart(ToLower(s))
    decreases |s|
  {
    if s != [] {
      assert ToLower(s)[1..] == ToLower(s[1..]);
      if IsSpace(s[0]) {
        ToLowerTrimStart(s[1..]);
      }
    }
  }

  lemma {:induction false} ToLowerTrimEnd(s: string)
    ensures ToLower(TrimEnd(s)) == TrimEnd(ToLower(s))
    decreases |s|
  {
    if s != [] {
      assert ToLower(s)[..|s| - 1] == ToLower(s[..|s| - 1]);
      if IsSpace(s[|s| - 1]) {
        ToLowerTrimEnd(s[..|s| - 1]);
      }
    }
  }

  /** Lowercasing and trimming commute, so the order in which a schema
      applies its `lowercase` and `trim` setters does not matter. */
  lemma ToLowerTrimCommute(s: string)
    ensures Trim(ToLower(s)) == ToLower(Trim(s))
  {
    ToLowerTrimStart(s);
    ToLowerTrimEnd(TrimStart(s));
  }

  /** `s.split(sep)` for a one-character separator: the maximal runs of
      characters between separators, empty runs included. */
  function Split(s: string, sep: char): (parts: seq<string>)
    ensures |parts| >= 1
    ensures forall k :: 0 <= k < |parts| ==> sep !in parts[k]
  {
    if s == [] then [[]]
    else
      var rest := Split(s[1..], sep);
      if s[0] == sep then [[]] + rest else [[s[0]] + rest[0]] + rest[1..]
  }

  /** `parts.join(sep)`. */
  function Join(parts: seq<string>, sep: char): string
    requires |parts| >= 1
  {
    if |parts| == 1 then parts[0] else parts[0] + [sep] + Join(parts[1..], sep)
  }

  /** Splitting loses nothing: joining the parts gives the string back. */
  lemma {:induction false} JoinSplit(s: string, sep: char)
    ensures Join(Split(s, sep), sep) == s
  {
    if s != [] {
      var rest := Split(s[1..], sep);
      JoinSplit(s[1..], sep);
      if s[0] != sep && |rest| > 1 {
        assert Join(rest, sep) == rest[0] + [sep] + Join(rest[1..], sep);
        assert ([[s[0]] + rest[0]] + rest[1..])[1..] == rest[1..];
      }
    }
  }

  /** Splitting a join of separator-free parts gives the parts back. */
  lemma {:induction false} SplitJoin(parts: seq<string>, sep: char)
    requires |parts| >= 1
    requires forall k :: 0 <= k < |parts| ==> sep !in parts[k]
    ensures Split(Join(parts, sep), sep) == parts
    decreases |parts|, |parts[0]|
  {
    var head := parts[0];
    if head == [] {
      if |parts| > 1 {
        SplitJoin(parts[1..], sep);
        assert Join(parts, sep) == [sep] + Join(parts[1..], sep);
        assert ([sep] + Join(parts[1..], sep))[1..] == Join(parts[1..], sep);
        assert [[]] + parts[1..] == parts;
      }
    } else {
      var shorter := [head[1..]] + parts[1..];
      SplitJoin(shorter, sep);
      var s := Join(parts, sep);
      assert s == [head[0]] + Join(shorter, sep) by {
        if |parts| > 1 {
          assert Join(shorter, sep) == head[1..] + [sep] + Join(parts[1..], sep);
          assert shorter[1..] == parts[1..];
        }
      }
      assert s[1..] == Join(shorter, sep);
      assert head[0] != sep by { assert head[0] in parts[0]; }
      assert [head[0]] + head[1..] == head;
      assert [head] + parts[1..] == parts;
    }
  }
}
