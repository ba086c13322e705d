/** The SQF non-code blanker of tools/check_sqf_bans.py.

    `StripNoncode` is the index-jumping scanner the tool runs.  It is proved
    against `ModeAt`, a one-character-at-a-time automaton that says what each
    position of an SQF source is: code, comment or string literal.
 */
module SqfLexer {

  /** What the lexer is inside of just before it reads a character. */
  datatype Mode =
    | Code
    | Line                    // inside `//`, up to the newline
    | BlockOpen               // the `*` of an opening `/*`
    | Block                   // inside `/* ... */`
    | BlockClose              // the `/` of a closing `*/`
    | Str(quote: char)        // inside a literal opened by `quote`
    | StrEscape(quote: char)  // the second half of a doubled quote

  predicate IsQuote(c: char) {
    c == '\"' || c == '\''
  }

  /** The character at `i`, or a character no rule looks for at the end. */
  function At(s: string, i: nat): char {
    if i < |s| then s[i] else '\0'
  }

  /** The mode after reading `c`, with one character of lookahead. */
  function Step(m: Mode, c: char, next: char): Mode {
    match m
    case Code =>
      if c == '/' && next == '/' then Line
      else if c == '/' && next == '*' then BlockOpen
      else if IsQuote(c) then Str(c)
      else Code
    case Line => if next == '\n' then Code else Line
    case BlockOpen => Block
    case Block => if c == '*' && next == '/' then BlockClose else Block
    case BlockClose => Code
    case Str(q) => if c != q then m else if next == q then StrEscape(q) else Code
    case StrEscape(q) => Str(q)
  }

  function ModeAt(s: string, i: nat): Mode
    requires i <= |s|
  {
    if i == 0 then Code else Step(ModeAt(s, i - 1), s[i - 1], At(s, i))
  }

  /** Position `i` is code: the lexer is in code and `s[i]` opens nothing. */
  predicate IsCode(s: string, i: nat)
    requires i < |s|
  {
    ModeAt(s, i) == Code && Step(Code, s[i], At(s, i + 1)) == Code
  }

  function BlankChar(c: char): char {
    if c == '\n' then c else ' '
  }

  /** `_blanked`. */
  function Blanked(text: string): (r: string)
    ensures |r| == |text|
    ensures forall i :: 0 <= i < |r| ==> r[i] == BlankChar(text[i])
  {
    if text == "" then "" else [BlankChar(text[0])] + Blanked(text[1..])
  }

  /** `out` is what the first `|out|` characters of `s` must be blanked to. */
  ghost predicate IsBlankedPrefix(s: string, out: string) {
    && |out| <= |s|
    && forall i :: 0 <= i < |out| ==> out[i] == if IsCode(s, i) then s[i] else BlankChar(s[i])
  }

  predicate MatchesAt(s: string, needle: string, k: nat) {
    k + |needle| <= |s| && s[k..k + |needle|] == needle
  }

  lemma MatchesAtChars(s: string, needle: string, k: nat)
    requires 1 <= |needle| <= 2
    ensures MatchesAt(s, needle, k) <==>
            k + |needle| <= |s| && s[k] == needle[0] && (|needle| == 2 ==> s[k + 1] == needle[1])
  {
    if k + |needle| <= |s| {
      assert |needle| == 1 ==> s[k..k + 1] == [s[k]];
      assert |needle| == 2 ==> s[k..k + 2] == [s[k], s[k + 1]];
    }
  }

  /** `source.find(needle, start)`: the first match at or after `start`, or -1. */
  function Find(s: string, needle: string, start: nat): (r: int)
    requires needle != ""
    ensures r == -1 || (start <= r && MatchesAt(s, needle, r))
    ensures forall k: nat :: start <= k && (r == -1 || k < r) ==> !MatchesAt(s, needle, k)
    decreases |s| - start
  {
    if start + |needle| > |s| then -1
    else if MatchesAt(s, needle, start) then start
    else Find(s, needle, start + 1)
  }

  /** `_end_of_line_comment`. */
  function EndOfLineComment(s: string, index: nat): nat
    requires index <= |s|
  {
    var end := Find(s, "\n", index);
    if end == -1 then |s| else end
  }

  /** `_end_of_block_comment`. */
  function EndOfBlockComment(s: string, index: nat): nat
    requires index <= |s|
  {
    var end := Find(s, "*/", index + 2);
    if end == -1 then |s| else end + 2
  }

  /** Inside a line comment the mode is `Line` until the newline, which is code. */
  lemma {:induction false} LineCommentMode(s: string, index: nat, i: nat)
    requires index + 1 < |s| && s[index] == '/' && s[index + 1] == '/'
    requires ModeAt(s, index) == Code
    requires index < i <= EndOfLineComment(s, index)
    ensures ModeAt(s, i) == if i < |s| && s[i] == '\n' then Code else Line
  {
    MatchesAtChars(s, "\n", i - 1);
    if i > index + 1 {
      LineCommentMode(s, index, i - 1);
    }
  }

  /** Inside a block comment the mode is `Block` until the closing marker is reached. */
  lemma {:induction false} BlockCommentMode(s: string, index: nat, i: nat)
    requires index + 1 < |s| && s[index] == '/' && s[index + 1] == '*'
    requires ModeAt(s, index) == Code
    requires index < i <= EndOfBlockComment(s, index)
    ensures var end := Find(s, "*/", index + 2);
            ModeAt(s, i) == if i == index + 1 then BlockOpen
                            else if end != -1 && i == end + 1 then BlockClose
                            else if end != -1 && i == end + 2 then Code
                            else Block
  {
    MatchesAtChars(s, "*/", i - 1);
    if i > index + 1 {
      BlockCommentMode(s, index, i - 1);
    }
  }

  /** `[index, end)` holds no code and code resumes at `end`. */
  ghost predicate NoncodeSpan(s: string, index: nat, end: nat) {
    && index < end <= |s|
    && (forall i :: index <= i < end ==> !IsCode(s, i))
    && (end < |s| ==> ModeAt(s, end) == Code)
  }

  lemma LineCommentSpan(s: string, index: nat)
    requires index + 1 < |s| && s[index] == '/' && s[index + 1] == '/'
    requires ModeAt(s, index) == Code
    ensures NoncodeSpan(s, index, EndOfLineComment(s, index))
  {
    var end := EndOfLineComment(s, index);
    MatchesAtChars(s, "\n", index);
    MatchesAtChars(s, "\n", end);
    forall i | index < i < end ensures ModeAt(s, i) == Line {
      LineCommentMode(s, index, i);
      MatchesAtChars(s, "\n", i);
    }
    LineCommentMode(s, index, end);
  }

  lemma BlockCommentSpan(s: string, index: nat)
    requires index + 1 < |s| && s[index] == '/' && s[index + 1] == '*'
    requires ModeAt(s, index) == Code
    ensures NoncodeSpan(s, index, EndOfBlockComment(s, index))
  {
    var end := EndOfBlockComment(s, index);
    forall i | index < i < end ensures ModeAt(s, i) != Code {
      BlockCommentMode(s, index, i);
    }
    BlockCommentMode(s, index, end);
  }

  /** `_end_of_string`: the literal's positions are non-code and code resumes at its end. */
  method EndOfString(s: string, index: nat) returns (end: nat)
    requires index < |s| && IsQuote(s[index])
    requires ModeAt(s, index) == Code
    ensures NoncodeSpan(s, index, end)
  {
    var quote := s[index];
    end := index + 1;
    while end < |s|
      invariant index < end <= |s|
      invariant ModeAt(s, end) == Str(quote)
      invariant forall i :: index <= i < end ==> !IsCode(s, i)
    {
      if s[end] == quote {
        if end + 1 < |s| && s[end + 1] == quote {
          end := end + 2;
          continue;
        }
        return end + 1;
      }
      end := end + 1;
    }
  }

  lemma BlankedSegment(s: string, out: string, index: nat, end: nat)
    requires |out| == index && NoncodeSpan(s, index, end) && IsBlankedPrefix(s, out)
    ensures IsBlankedPrefix(s, out + Blanked(s[index..end]))
  {
    var seg := Blanked(s[index..end]);
    forall i | 0 <= i < end
      ensures (out + seg)[i] == if IsCode(s, i) then s[i] else BlankChar(s[i])
    {
      if i >= index {
        assert (out + seg)[i] == seg[i - index];
        assert s[index..end][i - index] == s[i];
      }
    }
  }

  lemma CopiedCode(s: string, out: string, index: nat)
    requires |out| == index < |s| && ModeAt(s, index) == Code && IsBlankedPrefix(s, out)
    requires !MatchesAt(s, "//", index) && !MatchesAt(s, "/*", index) && !IsQuote(s[index])
    ensures IsBlankedPrefix(s, out + [s[index]])
    ensures index + 1 < |s| ==> ModeAt(s, index + 1) == Code
  {
    MatchesAtChars(s, "//", index);
    MatchesAtChars(s, "/*", index);
    assert IsCode(s, index);
  }

  /** `strip_noncode`: copies exactly the code characters, keeps every newline
      where it was, and blanks everything else. */
  method StripNoncode(s: string) returns (r: string)
    ensures IsStripped(s, r)
    ensures forall i :: 0 <= i < |s| ==> (r[i] == '\n' <==> s[i] == '\n')
  {
    var out := "";
    var index := 0;
    while index < |s|
      invariant index <= |s| && |out| == index
      invariant index < |s| ==> ModeAt(s, index) == Code
      invariant IsBlankedPrefix(s, out)
      decreases |s| - index
    {
      var end: nat;
      if MatchesAt(s, "//", index) {
        MatchesAtChars(s, "//", index);
        end := EndOfLineComment(s, index);
        LineCommentSpan(s, index);
      } else if MatchesAt(s, "/*", index) {
        MatchesAtChars(s, "/*", index);
        end := EndOfBlockComment(s, index);
        BlockCommentSpan(s, index);
      } else if IsQuote(s[index]) {
        end := EndOfString(s, index);
      } else {
        CopiedCode(s, out, index);
        out := out + [s[index]];
        index := index + 1;
        continue;
      }
      BlankedSegment(s, out, index, end);
      out := out + Blanked(s[index..end]);
      index := end;
    }
    r := out;
  }

  /** The blanked form of a source, as a value. */
  ghost predicate IsStripped(s: string, r: string) {
    |r| == |s| && IsBlankedPrefix(s, r)
  }

  /** A stripped source is all code: nothing left in it opens a comment or a literal. */
  lemma {:induction false} StrippedStaysInCode(s: string, r: string, i: nat)
    requires IsStripped(s, r) && i <= |r|
    ensures ModeAt(r, i) == Code
    ensures i < |r| ==> IsCode(r, i)
  {
    if i > 0 {
      StrippedStaysInCode(s, r, i - 1);
    }
    if i < |r| {
      // A character that opens something is never copied, and a copied `/`
      // is never followed by a copied `/` or `*`.
      assert !IsQuote(r[i]);
      assert r[i] == '/' ==> IsCode(s, i);
    }
  }

  /** Stripping is idempotent: a second pass changes nothing. */
  lemma StripIsIdempotent(s: string, once: string, twice: string)
    requires IsStripped(s, once) && IsStripped(once, twice)
    ensures twice == once
  {
    forall i | 0 <= i < |once| ensures twice[i] == once[i] {
      StrippedStaysInCode(s, once, i);
    }
  }
}
