/** White space and words, as Rust's `str` methods see them. */
module Text {
  /** `char::is_whitespace`: the Unicode White_Space property. */
  predicate IsSpace(c: char) {
    var n := c as int;
    9 <= n <= 13 || n == 0x20 || n == 0x85 || n == 0xA0 || n == 0x1680 || 0x2000 <= n <= 0x200A ||
    n == 0x2028 || n == 0x2029 || n == 0x202F || n == 0x205F || n == 0x3000
  }

  /** The length of the word `s` starts with. */
  function WordLength(s: string): (n: nat)
    ensures n <= |s|
    ensures forall i :: 0 <= i < n ==> !IsSpace(s[i])
    ensures n < |s| ==> IsSpace(s[n])
  {
    if s == [] || IsSpace(s[0]) then 0 else 1 + WordLength(s[1..])
  }

  /** `split_whitespace` */
  function Words(s: string): (words: seq<string>)
    ensures |words| <= |s|
    ensures forall w :: w in words ==> w != [] && forall i :: 0 <= i < |w| ==> !IsSpace(w[i])
    decreases |s|
  {
    if s == [] then []
    else if IsSpace(s[0]) then Words(s[1..])
    else
      var n := WordLength(s);
      [s[..n]] + Words(s[n..])
  }

  /** `trim_end_matches('\r')` */
  function TrimReturns(s: string): string {
    if s != [] && s[|s| - 1] == '\r' then TrimReturns(s[..|s| - 1]) else s
  }

  /** `trim` */
  function Trim(s: string): string {
    if s != [] && IsSpace(s[0]) then Trim(s[1..])
    else if s != [] && IsSpace(s[|s| - 1]) then Trim(s[..|s| - 1])
    else s
  }

  // ----- what these do, without their bodies -----

  predicate AllSpace(s: string) {
    forall i :: 0 <= i < |s| ==> IsSpace(s[i])
  }

  /** No white space at either end. */
  predicate Trimmed(s: string) {
    s == "" || (!IsSpace(s[0]) && !IsSpace(s[|s| - 1]))
  }

  /** Trimming removes white space at both ends, all of it, and nothing else. */
  lemma {:induction false} TrimParts(s: string) returns (a: string, b: string)
    ensures s == a + Trim(s) + b && AllSpace(a) && AllSpace(b) && Trimmed(Trim(s))
    decreases |s|
  {
    a, b := "", "";
    if s != [] && IsSpace(s[0]) {
      a, b := TrimParts(s[1..]);
      a := [s[0]] + a;
      assert s == [s[0]] + s[1..];
    } else if s != [] && IsSpace(s[|s| - 1]) {
      a, b := TrimParts(s[..|s| - 1]);
      b := b + [s[|s| - 1]];
      assert s == s[..|s| - 1] + [s[|s| - 1]];
    }
  }

  lemma {:induction false} TrimOf(a: string, s: string, b: string)
    requires AllSpace(a) && AllSpace(b) && Trimmed(s)
    ensures Trim(a + s + b) == s
    decreases |a| + |b|
  {
    var t := a + s + b;
    if a != "" {
      assert t[1..] == a[1..] + s + b;
      TrimOf(a[1..], s, b);
    } else if b != "" && s != "" {
      assert t[0] == s[0] && t[..|t| - 1] == a + s + b[..|b| - 1];
      TrimOf(a, s, b[..|b| - 1]);
    } else if b != "" {
      assert t == b && t[1..] == "" + s + b[1..];
      TrimOf("", s, b[1..]);
    } else {
      assert t == s;
    }
  }

  lemma {:induction false} ReturnsParts(s: string) returns (b: string)
    ensures s == TrimReturns(s) + b && AllSpace(b)
    ensures TrimReturns(s) != "" ==> TrimReturns(s)[|TrimReturns(s)| - 1] != '\r'
  {
    b := "";
    if s != [] && s[|s| - 1] == '\r' {
      b := ReturnsParts(s[..|s| - 1]);
      b := b + [s[|s| - 1]];
      assert s == s[..|s| - 1] + [s[|s| - 1]];
    }
  }

  /** The characters of a text that are not white space. */
  function Letters(s: string): string {
    if s == "" then "" else (if IsSpace(s[0]) then "" else [s[0]]) + Letters(s[1..])
  }

  function RunTogether(words: seq<string>): string {
    if words == [] then "" else words[0] + RunTogether(words[1..])
  }

  /** How many words begin in a text: characters that are not white space, first or after white
      space. */
  function Beginnings(s: string, after: bool): nat {
    if s == "" then 0
    else (if after && !IsSpace(s[0]) then 1 else 0) + Beginnings(s[1..], IsSpace(s[0]))
  }

  /** No word is left out, none is cut and none are put together. */
  lemma {:induction false} WordsAreAll(s: string)
    ensures RunTogether(Words(s)) == Letters(s)
    ensures |Words(s)| == Beginnings(s, true)
    decreases |s|
  {
    if s != [] && IsSpace(s[0]) {
      WordsAreAll(s[1..]);
    } else if s != [] {
      var n := WordLength(s);
      WordsAreAll(s[n..]);
      WordApart(s, n, true);
    }
  }

  /** A word at the beginning of a text. */
  lemma {:induction false} WordApart(s: string, n: nat, after: bool)
    requires n <= |s| && (forall i :: 0 <= i < n ==> !IsSpace(s[i])) && (n < |s| ==> IsSpace(s[n]))
    ensures Letters(s) == s[..n] + Letters(s[n..])
    ensures Beginnings(s, after) == (if after && n > 0 then 1 else 0) + Beginnings(s[n..], true)
    decreases n
  {
    if n == 0 {
      assert s[n..] == s;
    } else {
      assert s[1..][n - 1..] == s[n..] && s[..n] == [s[0]] + s[1..][..n - 1];
      WordApart(s[1..], n - 1, false);
    }
  }
}
