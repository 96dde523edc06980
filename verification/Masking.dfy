/** Masking comments and literals in Rust source text (tools/check_invariant_traceability.py, `rust_code`). */
module Masking {
  import opened Base

  datatype Fault = UnterminatedBlockComment | UnterminatedRawString | UnterminatedString

  // ---------------------------------------------------------------- tokens

  predicate StartsWith(text: string, p: string, i: nat) {
    i + |p| <= |text| && text[i..i + |p|] == p
  }

  /** `str.find`: the first place at or after `i` where `p` occurs. */
  function Find(text: string, p: string, i: nat): (r: Option<nat>)
    requires i <= |text| && p != ""
    ensures r.Some? ==> i <= r.value && StartsWith(text, p, r.value)
    ensures forall k | i <= k < if r.Some? then r.value else |text| :: !StartsWith(text, p, k)
    decreases |text| - i
  {
    if i == |text| then None
    else if StartsWith(text, p, i) then Some(i)
    else Find(text, p, i + 1)
  }

  /** Where a block comment ends, reading from `i` inside `depth` open comments. */
  function BlockEnd(text: string, i: nat, depth: nat): (r: Option<nat>)
    requires i <= |text|
    ensures r.Some? ==> i <= r.value <= |text|
    decreases |text| - i
  {
    if depth == 0 then Some(i)
    else if i == |text| then None
    else if StartsWith(text, "/*", i) then BlockEnd(text, i + 2, depth + 1)
    else if StartsWith(text, "*/", i) then BlockEnd(text, i + 2, depth - 1)
    else BlockEnd(text, i + 1, depth)
  }

  /** The closing quote of a string read from `i`; a backslash hides the next character. */
  function Quote(text: string, i: nat): (r: Option<nat>)
    ensures r.Some? ==> i <= r.value < |text| && text[r.value] == '"'
    decreases |text| - i
  {
    if i >= |text| then None
    else if text[i] == '"' then Some(i)
    else Quote(text, i + if text[i] == '\\' then 2 else 1)
  }

  function HashesEnd(text: string, i: nat): (r: nat)
    requires i <= |text|
    ensures i <= r <= |text|
    decreases |text| - i
  {
    if i < |text| && text[i] == '#' then HashesEnd(text, i + 1) else i
  }

  /** `(?:br|r)(#*)"` at `i`: where the hashes begin and where the quote stands. */
  function RawOpen(text: string, i: nat): (r: Option<(nat, nat)>)
    ensures r.Some? ==> i < r.value.0 <= r.value.1 < |text| && text[r.value.1] == '"'
  {
    var begin := if StartsWith(text, "br", i) then i + 2 else if StartsWith(text, "r", i) then i + 1 else i;
    if begin == i then None else
    var end := HashesEnd(text, begin);
    if end < |text| && text[end] == '"' then Some((begin, end)) else None
  }

  /** `'(?:\\.|[^'\\\n])'` at `i`: the end of the character literal. */
  function CharEnd(text: string, i: nat): (r: Option<nat>)
    ensures r.Some? ==> i + 3 <= r.value <= |text|
  {
    if i + 3 < |text| && text[i] == '\'' && text[i + 1] == '\\' && text[i + 2] != '\n' && text[i + 3] == '\'' then Some(i + 4)
    else if i + 2 < |text| && text[i] == '\'' && text[i + 1] !in "'\\\n" && text[i + 2] == '\'' then Some(i + 3)
    else None
  }

  lemma TwoCharacters(text: string, p: string, i: nat)
    requires |p| == 2
    ensures StartsWith(text, p, i) <==> i + 1 < |text| && text[i] == p[0] && text[i + 1] == p[1]
  {
    if i + 1 < |text| { assert text[i..i + 2] == [text[i], text[i + 1]]; }
    assert p == [p[0], p[1]];
  }

  lemma LineBreakAt(text: string, k: nat)
    requires StartsWith(text, "\n", k)
    ensures text[k] == '\n'
  {
    assert text[k..k + 1][0] == text[k];
  }

  /** The end of the comment or literal that begins at `i`, if one does. */
  function TokenEnd(text: string, i: nat): (r: Result<Option<nat>, Fault>)
    requires i < |text|
    ensures r.Ok? && r.value.Some? ==> i + 2 <= r.value.value <= |text|
  {
    if StartsWith(text, "//", i) then
      TwoCharacters(text, "//", i);
      var end := Find(text, "\n", i);
      if end.None? then Ok(Some(|text|)) else
      LineBreakAt(text, end.value);
      Ok(end)
    else if StartsWith(text, "/*", i) then
      var end := BlockEnd(text, i + 2, 1);
      if end.None? then Err(UnterminatedBlockComment) else Ok(end)
    else if RawOpen(text, i).Some? then
      var (begin, quote) := RawOpen(text, i).value;
      var closing := "\"" + text[begin..quote];
      var end := Find(text, closing, quote + 1);
      if end.None? then Err(UnterminatedRawString) else Ok(Some(end.value + |closing|))
    else if text[i] == '"' then
      var end := Quote(text, i + 1);
      if end.None? then Err(UnterminatedString) else Ok(Some(end.value + 1))
    else Ok(CharEnd(text, i))
  }

  function Blanked(c: char): char { if c == '\n' then '\n' else ' ' }

  function Blank(s: string): (r: string)
    ensures |r| == |s|
  {
    seq(|s|, k requires 0 <= k < |s| => Blanked(s[k]))
  }

  /** The text from `i` on, with every comment and literal blanked. */
  function Masked(text: string, i: nat): (r: Result<string, Fault>)
    requires i <= |text|
    ensures r.Ok? ==> |r.value| == |text| - i
    decreases |text| - i
  {
    if i == |text| then Ok("") else
    var token := TokenEnd(text, i);
    if token.Err? then Err(token.error) else
    match token.value
    case None =>
      var rest := Masked(text, i + 1);
      if rest.Err? then rest else Ok([text[i]] + rest.value)
    case Some(end) =>
      var rest := Masked(text, end);
      if rest.Err? then rest else Ok(Blank(text[i..end]) + rest.value)
  }

  // ---------------------------------------------------------------- what masking leaves

  /** Each character stays or is blanked; line breaks stay where they are. */
  lemma {:induction false} MaskedPointwise(text: string, i: nat)
    requires i <= |text| && Masked(text, i).Ok?
    ensures forall k | 0 <= k < |text| - i :: Masked(text, i).value[k] == text[i + k] || Masked(text, i).value[k] == Blanked(text[i + k])
    decreases |text| - i
  {
    hide TokenEnd;
    if i < |text| {
      var token := TokenEnd(text, i).value;
      MaskedPointwise(text, if token.None? then i + 1 else token.value);
    }
  }

  /** A character that changes is followed by another blanked one: tokens are at least two long. */
  lemma MaskedInPairs(text: string, i: nat)
    requires i < |text| && Masked(text, i).Ok?
    ensures var out := Masked(text, i).value;
      if TokenEnd(text, i) == Ok(None) then out[0] == text[i] && Masked(text, i + 1).Ok? && out[1..] == Masked(text, i + 1).value
      else |out| >= 2 && out[0] == Blanked(text[i]) && out[1] == Blanked(text[i + 1])
  {
    hide TokenEnd;
  }

  /** No comment opener, no double quote and no character literal begins at `k`. */
  predicate CleanAt(s: string, k: nat)
    requires k < |s|
  {
    s[k] != '"' && !StartsWith(s, "//", k) && !StartsWith(s, "/*", k) && CharEnd(s, k).None?
  }

  predicate Clean(s: string) {
    forall k | 0 <= k < |s| :: CleanAt(s, k)
  }

  lemma {:induction false} MaskedIsClean(text: string, i: nat)
    requires i <= |text| && Masked(text, i).Ok?
    ensures Clean(Masked(text, i).value)
    decreases |text| - i
  {
    hide TokenEnd, CleanAt;
    if i < |text| {
      var token := TokenEnd(text, i).value;
      var next := if token.None? then i + 1 else token.value;
      MaskedIsClean(text, next);
      if token.None? {
        KeptIsClean(text, i);
        CleanAppend([text[i]], Masked(text, next).value);
      } else {
        var blank := Blank(text[i..next]);
        forall k | 0 <= k < |blank|
          ensures CleanAt(blank + Masked(text, next).value, k)
        {
          var out := blank + Masked(text, next).value;
          assert out[k] == blank[k] == Blanked(text[i..next][k]);
          BlankIsClean(out, k);
        }
        CleanAppend(blank, Masked(text, next).value);
      }
    }
  }

  lemma CleanAppend(a: string, b: string)
    requires Clean(b) && forall k | 0 <= k < |a| :: CleanAt(a + b, k)
    ensures Clean(a + b)
  {
    forall k | |a| <= k < |a + b|
      ensures CleanAt(a + b, k)
    {
      assert CleanAt(b, k - |a|);
      assert forall n | k <= n < |a + b| :: (a + b)[n] == b[n - |a|];
      forall p | p == "//" || p == "/*"
        ensures !StartsWith(a + b, p, k)
      {
        if k + 2 <= |a + b| { assert (a + b)[k..k + 2] == b[k - |a|..k - |a| + 2]; }
      }
    }
  }

  lemma BlankIsClean(s: string, k: nat)
    requires k < |s| && (s[k] == ' ' || s[k] == '\n')
    ensures CleanAt(s, k)
  {
    TwoCharacters(s, "//", k);
    TwoCharacters(s, "/*", k);
  }

  /** A character is kept exactly when no token begins there. */
  lemma KeptExactlyWithoutToken(text: string, i: nat)
    requires i < |text|
    ensures TokenEnd(text, i) == Ok(None) <==> CleanAt(text, i) && RawOpen(text, i).None?
  {
  }

  /** Blanking what follows a kept character never makes it open a comment or a literal. */
  lemma KeptIsClean(text: string, i: nat)
    requires i < |text| && TokenEnd(text, i) == Ok(None) && Masked(text, i).Ok?
    ensures CleanAt(Masked(text, i).value, 0)
  {
    hide TokenEnd, Masked, CharEnd, Clean;
    var out := Masked(text, i).value;
    KeptExactlyWithoutToken(text, i);
    MaskedPointwise(text, i);
    MaskedInPairs(text, i);
    TwoCharacters(text, "//", i);
    TwoCharacters(text, "/*", i);
    TwoCharacters(out, "//", 0);
    TwoCharacters(out, "/*", 0);
    KeptIsNoCharacter(text, i);
  }

  lemma KeptIsNoCharacter(text: string, i: nat)
    requires i < |text| && TokenEnd(text, i) == Ok(None) && Masked(text, i).Ok? && CharEnd(text, i).None?
    ensures CharEnd(Masked(text, i).value, 0).None?
  {
    hide TokenEnd, Masked, Clean, StartsWith, RawOpen;
    var out := Masked(text, i).value;
    MaskedPointwise(text, i);
    MaskedInPairs(text, i);
    if |out| > 1 {
      MaskedInPairs(text, i + 1);
      if |out| > 2 && TokenEnd(text, i + 1) == Ok(None) { MaskedInPairs(text, i + 2); }
    }
  }

  lemma {:induction false} CleanIsUnchanged(s: string, i: nat)
    requires Clean(s) && i <= |s|
    ensures Masked(s, i) == Ok(s[i..])
    decreases |s| - i
  {
    hide TokenEnd, CleanAt;
    if i < |s| {
      CleanIsUnchanged(s, i + 1);
      assert CleanAt(s, i);
      KeptExactlyWithoutToken(s, i);
      NoRawWithoutQuote(s, i);
      assert s[i..] == [s[i]] + s[i + 1..];
    } else {
      assert s[i..] == "";
    }
  }

  lemma NoRawWithoutQuote(s: string, i: nat)
    requires Clean(s)
    ensures RawOpen(s, i).None?
  {
    hide CharEnd, StartsWith;
    forall k | 0 <= k < |s|
      ensures s[k] != '"'
    {
      assert CleanAt(s, k);
    }
  }

  /** The outcome of masking `text` to `out`. */
  ghost predicate Masks(text: string, out: string) {
    && |out| == |text|
    && (forall k | 0 <= k < |text| :: out[k] == '\n' <==> text[k] == '\n')
    && (forall k | 0 <= k < |text| :: out[k] == text[k] || out[k] == ' ')
    && Clean(out)
  }

  /** Masking keeps every position, leaves nothing to mask, and a second pass changes nothing. */
  lemma MaskingIsFaithfulAndIdempotent(text: string)
    requires Masked(text, 0).Ok?
    ensures Masks(text, Masked(text, 0).value)
    ensures Masked(Masked(text, 0).value, 0) == Masked(text, 0)
  {
    MaskedPointwise(text, 0);
    MaskedIsClean(text, 0);
    CleanIsUnchanged(Masked(text, 0).value, 0);
  }

  // ---------------------------------------------------------------- nested comments

  /** The inside of a block comment: characters, and comments within. */
  datatype Piece = Letter(letter: char) | Nested(pieces: seq<Piece>)

  function Write(pieces: seq<Piece>): string
    decreases pieces
  {
    if pieces == [] then "" else
    (match pieces[0] case Letter(c) => [c] case Nested(inner) => "/*" + Write(inner) + "*/") + Write(pieces[1..])
  }

  /** No character of the comment, with the one that follows it, opens or closes a comment. */
  predicate Plain(pieces: seq<Piece>)
    decreases pieces
  {
    pieces != [] ==>
      && Plain(pieces[1..])
      && match pieces[0]
         case Letter(c) => !Turns(c, (Write(pieces[1..]) + "*/")[0])
         case Nested(inner) => Plain(inner)
  }

  predicate Turns(c: char, d: char) { (c == '/' && d == '*') || (c == '*' && d == '/') }

  lemma Splits(text: string, a: string, b: string, i: nat)
    ensures StartsWith(text, a + b, i) <==> StartsWith(text, a, i) && StartsWith(text, b, i + |a|)
  {
    if i + |a + b| <= |text| {
      assert text[i..i + |a + b|] == text[i..i + |a|] + text[i + |a|..i + |a + b|];
      if text[i..i + |a + b|] == a + b {
        assert text[i..i + |a|] == (a + b)[..|a|];
        assert text[i + |a|..i + |a + b|] == (a + b)[|a|..];
      }
    }
  }

  lemma OneCharacter(text: string, c: char, i: nat)
    ensures StartsWith(text, [c], i) <==> i < |text| && text[i] == c
  {
    if i < |text| { assert text[i..i + 1] == [text[i]]; }
  }

  lemma FirstOf(text: string, p: string, i: nat)
    requires StartsWith(text, p, i) && p != ""
    ensures i < |text| && text[i] == p[0]
  {
    assert text[i..i + |p|][0] == text[i];
  }

  /** A character that neither opens nor closes leaves the depth as it is. */
  lemma Passes(text: string, i: nat, depth: nat)
    requires i + 1 < |text| && !Turns(text[i], text[i + 1]) && depth > 0
    ensures BlockEnd(text, i, depth) == BlockEnd(text, i + 1, depth)
  {
    TwoCharacters(text, "/*", i);
    TwoCharacters(text, "*/", i);
  }

  /** The scan goes over the pieces of a comment to its closing. */
  lemma {:induction false} PiecesSkipped(text: string, pieces: seq<Piece>, i: nat, depth: nat)
    requires StartsWith(text, Write(pieces) + "*/", i) && depth > 0 && Plain(pieces)
    ensures BlockEnd(text, i, depth) == BlockEnd(text, i + |Write(pieces)|, depth)
    decreases pieces
  {
    hide BlockEnd, StartsWith;
    if pieces != [] {
      var rest := Write(pieces[1..]) + "*/";
      match pieces[0] {
        case Letter(c) =>
          assert Write(pieces) + "*/" == [c] + rest;
          Splits(text, [c], rest, i);
          OneCharacter(text, c, i);
          FirstOf(text, rest, i + 1);
          Passes(text, i, depth);
          PiecesSkipped(text, pieces[1..], i + 1, depth);
        case Nested(inner) =>
          var comment := "/*" + (Write(inner) + "*/");
          assert "/*" + Write(inner) + "*/" == comment;
          assert Write(pieces) + "*/" == comment + rest;
          NestedParts(text, Write(inner), rest, i);
          Opens(text, i, depth);
          PiecesSkipped(text, inner, i + 2, depth + 1);
          Closes(text, i + 2 + |Write(inner)|, depth + 1);
          PiecesSkipped(text, pieces[1..], i + |comment|, depth);
      }
    }
  }

  lemma NestedParts(text: string, body: string, rest: string, i: nat)
    requires StartsWith(text, "/*" + (body + "*/") + rest, i)
    ensures StartsWith(text, "/*", i) && StartsWith(text, body + "*/", i + 2) && StartsWith(text, "*/", i + 2 + |body|)
    ensures StartsWith(text, rest, i + |body| + 4)
  {
    hide StartsWith;
    Splits(text, "/*" + (body + "*/"), rest, i);
    Splits(text, "/*", body + "*/", i);
    Splits(text, body, "*/", i + 2);
  }

  lemma Opens(text: string, i: nat, depth: nat)
    requires StartsWith(text, "/*", i) && depth > 0
    ensures i + 2 <= |text| && BlockEnd(text, i, depth) == BlockEnd(text, i + 2, depth + 1)
  {
  }

  lemma Closes(text: string, i: nat, depth: nat)
    requires StartsWith(text, "*/", i) && depth > 0
    ensures i + 2 <= |text| && BlockEnd(text, i, depth) == BlockEnd(text, i + 2, depth - 1)
  {
    TwoCharacters(text, "*/", i);
    TwoCharacters(text, "/*", i);
  }

  /** The other way: where the scan of a comment at some depth closes that depth, it has read pieces. */
  lemma {:induction false} PiecesRead(text: string, i: nat, depth: nat) returns (pieces: seq<Piece>)
    requires i <= |text| && depth > 0 && BlockEnd(text, i, depth).Some?
    ensures Plain(pieces) && StartsWith(text, Write(pieces) + "*/", i)
    ensures BlockEnd(text, i, depth) == BlockEnd(text, i + |Write(pieces) + "*/"|, depth - 1)
    decreases |text| - i
  {
    hide StartsWith, BlockEnd;
    StillInside(text, i, depth);
    if StartsWith(text, "/*", i) {
      Opens(text, i, depth);
      var inner := PiecesRead(text, i + 2, depth + 1);
      var body := Write(inner) + "*/";
      Extent(text, body, i + 2);
      var more := PiecesRead(text, i + 2 + |body|, depth);
      pieces := [Nested(inner)] + more;
      assert pieces[1..] == more;
      assert Write(pieces) + "*/" == ("/*" + body) + (Write(more) + "*/");
      Splits(text, "/*", body, i);
      Splits(text, "/*" + body, Write(more) + "*/", i);
    } else if StartsWith(text, "*/", i) {
      Closes(text, i, depth);
      pieces := [];
      assert Write(pieces) + "*/" == "*/";
    } else {
      var more := PiecesRead(text, i + 1, depth);
      pieces := [Letter(text[i])] + more;
      assert pieces[1..] == more;
      var rest := Write(more) + "*/";
      assert Write(pieces) + "*/" == [text[i]] + rest;
      FirstOf(text, rest, i + 1);
      TwoCharacters(text, "/*", i);
      TwoCharacters(text, "*/", i);
      OneCharacter(text, text[i], i);
      Splits(text, [text[i]], rest, i);
    }
  }

  lemma StillInside(text: string, i: nat, depth: nat)
    requires i <= |text| && depth > 0 && BlockEnd(text, i, depth).Some?
    ensures i < |text|
    ensures !StartsWith(text, "/*", i) && !StartsWith(text, "*/", i) ==> BlockEnd(text, i, depth) == BlockEnd(text, i + 1, depth)
  {
  }

  lemma Extent(text: string, p: string, i: nat)
    requires StartsWith(text, p, i)
    ensures i + |p| <= |text|
  {
  }

  /** The body of a block comment: what can be read as pieces. */
  ghost predicate IsComment(body: string) {
    exists pieces :: Plain(pieces) && Write(pieces) == body
  }

  /** A block comment is one token exactly when its inside is balanced, to any depth and wherever it stands: all of
      it is blanked, and nothing after it. */
  lemma BalancedCommentsAreOneToken(before: string, body: string, after: string)
    ensures var comment := "/*" + body + "*/";
      TokenEnd(before + comment + after, |before|) == Ok(Some(|before + comment|)) <==> IsComment(body)
  {
    hide BlockEnd, StartsWith, Plain, Write;
    var comment := "/*" + body + "*/";
    var text, i := before + comment + after, |before|;
    Placed(before, comment, after);
    assert comment == "/*" + (body + "*/");
    Splits(text, "/*", body + "*/", i);
    Splits(text, body, "*/", i + 2);
    TwoCharacters(text, "/*", i);
    TwoCharacters(text, "//", i);
    var end := i + |comment|;
    Outside(text, end);
    if IsComment(body) {
      var pieces :| Plain(pieces) && Write(pieces) == body;
      PiecesSkipped(text, pieces, i + 2, 1);
      Closes(text, i + 2 + |body|, 1);
    }
    if TokenEnd(text, i) == Ok(Some(end)) {
      var pieces := PiecesRead(text, i + 2, 1);
      Extent(text, Write(pieces) + "*/", i + 2);
      Outside(text, i + 2 + |Write(pieces) + "*/"|);
      SameRead(text, body, Write(pieces), i + 2);
    }
  }

  lemma SameRead(text: string, a: string, b: string, i: nat)
    requires |a| == |b| && StartsWith(text, a + "*/", i) && StartsWith(text, b + "*/", i)
    ensures a == b
  {
    assert a == (a + "*/")[..|a|] && b == (b + "*/")[..|b|];
  }

  lemma Placed(before: string, middle: string, after: string)
    ensures StartsWith(before + middle + after, middle, |before|)
  {
  }

  lemma Outside(text: string, i: nat)
    requires i <= |text|
    ensures BlockEnd(text, i, 0) == Some(i)
  {
  }

  // ---------------------------------------------------------------- line comments

  /** A line comment is one token exactly when it reaches up to the next line break, or to the end of the text. */
  lemma LineCommentsAreOneToken(before: string, body: string, after: string)
    ensures var comment := "//" + body;
      TokenEnd(before + comment + after, |before|) == Ok(Some(|before + comment|)) <==>
        '\n' !in body && (after != "" ==> after[0] == '\n')
  {
    hide StartsWith, Find;
    var comment := "//" + body;
    var text, i := before + comment + after, |before|;
    Placed(before, comment, after);
    Splits(text, "//", body, i);
    forall k: nat
      ensures StartsWith(text, "\n", k) <==> k < |text| && text[k] == '\n'
    {
      OneCharacter(text, '\n', k);
    }
    var end := i + |comment|;
    assert forall k | i <= k < end :: text[k] == comment[k - i];
    assert end < |text| ==> text[end] == after[0];
    if '\n' in body {
      var k :| 0 <= k < |body| && body[k] == '\n';
      assert text[i + 2 + k] == '\n';
    }
  }

  // ---------------------------------------------------------------- strings

  /** The inside of a string literal: plain characters, and backslashes each with the character it hides. */
  datatype Mark = Sign(sign: char) | Escape(hidden: char)

  function Spell(marks: seq<Mark>): string {
    if marks == [] then "" else
    (match marks[0] case Sign(c) => [c] case Escape(c) => ['\\', c]) + Spell(marks[1..])
  }

  predicate Spells(marks: seq<Mark>) {
    forall m | m in marks && m.Sign? :: m.sign != '"' && m.sign != '\\'
  }

  ghost predicate IsString(body: string) {
    exists marks :: Spells(marks) && Spell(marks) == body
  }

  /** The scan goes over the marks of a string to its closing quote. */
  lemma {:induction false} MarksSkipped(text: string, marks: seq<Mark>, i: nat)
    requires StartsWith(text, Spell(marks) + "\"", i) && Spells(marks)
    ensures Quote(text, i) == Some(i + |Spell(marks)|)
    decreases marks
  {
    hide StartsWith;
    if marks == [] {
      assert Spell(marks) + "\"" == ['"'];
      OneCharacter(text, '"', i);
    } else {
      var rest := Spell(marks[1..]) + "\"";
      assert marks[0] in marks && forall m | m in marks[1..] :: m in marks;
      match marks[0] {
        case Sign(c) =>
          assert Spell(marks) + "\"" == [c] + rest;
          Splits(text, [c], rest, i);
          OneCharacter(text, c, i);
          MarksSkipped(text, marks[1..], i + 1);
        case Escape(c) =>
          assert Spell(marks) + "\"" == ['\\', c] + rest;
          Splits(text, ['\\', c], rest, i);
          TwoCharacters(text, ['\\', c], i);
          MarksSkipped(text, marks[1..], i + 2);
      }
    }
  }

  /** The other way: up to the quote it finds, the scan has read marks. */
  lemma {:induction false} MarksRead(text: string, i: nat) returns (marks: seq<Mark>)
    requires Quote(text, i).Some?
    ensures Spells(marks) && Spell(marks) == text[i..Quote(text, i).value]
    decreases |text| - i
  {
    var q := Quote(text, i).value;
    assert i <= q < |text|;
    if text[i] == '"' {
      marks := [];
    } else {
      var mark := if text[i] == '\\' then Escape(text[i + 1]) else Sign(text[i]);
      var next := if text[i] == '\\' then i + 2 else i + 1;
      var more := MarksRead(text, next);
      marks := [mark] + more;
      assert marks[1..] == more;
      assert text[i..q] == text[i..next] + text[next..q];
      assert text[i..next] == if text[i] == '\\' then [text[i], text[i + 1]] else [text[i]];
    }
  }

  /** A string is one token exactly when its inside is plain characters and escapes, wherever it stands. */
  lemma StringsAreOneToken(before: string, body: string, after: string)
    ensures var literal := "\"" + body + "\"";
      TokenEnd(before + literal + after, |before|) == Ok(Some(|before + literal|)) <==> IsString(body)
  {
    hide StartsWith, Quote, Spell, Spells;
    var literal := "\"" + body + "\"";
    var text, i := before + literal + after, |before|;
    Placed(before, literal, after);
    assert literal == "\"" + (body + "\"");
    Splits(text, "\"", body + "\"", i);
    OneCharacter(text, '"', i);
    NoOther(text, i);
    var q := i + 1 + |body|;
    assert text[i + 1..q] == body;
    if IsString(body) {
      var marks :| Spells(marks) && Spell(marks) == body;
      MarksSkipped(text, marks, i + 1);
    }
    if Quote(text, i + 1) == Some(q) {
      var marks := MarksRead(text, i + 1);
      assert Spell(marks) == body;
    }
  }

  /** A quote begins no comment and no raw string. */
  lemma NoOther(text: string, i: nat)
    requires i < |text| && text[i] == '"'
    ensures !StartsWith(text, "//", i) && !StartsWith(text, "/*", i) && RawOpen(text, i).None?
  {
    TwoCharacters(text, "//", i);
    TwoCharacters(text, "/*", i);
    TwoCharacters(text, "br", i);
    OneCharacter(text, 'r', i);
  }

  function Hashes(n: nat): (h: string)
    ensures |h| == n
  {
    seq(n, _ => '#')
  }

  lemma {:induction false} HashesRead(text: string, i: nat, n: nat)
    requires StartsWith(text, Hashes(n) + "\"", i)
    ensures HashesEnd(text, i) == i + n && i + n < |text| && text[i + n] == '"' && text[i..i + n] == Hashes(n)
    decreases n
  {
    hide StartsWith;
    Splits(text, Hashes(n), "\"", i);
    OneCharacter(text, '"', i + n);
    Cut(text, Hashes(n), i);
    if n > 0 {
      assert Hashes(n) + "\"" == ['#'] + (Hashes(n - 1) + "\"");
      Splits(text, ['#'], Hashes(n - 1) + "\"", i);
      OneCharacter(text, '#', i);
      HashesRead(text, i + 1, n - 1);
    }
  }

  lemma Cut(text: string, p: string, i: nat)
    requires StartsWith(text, p, i)
    ensures i + |p| <= |text| && text[i..i + |p|] == p
  {
  }

  /** `p` occurs in `s`. */
  ghost predicate Occurs(s: string, p: string) {
    exists k: nat :: StartsWith(s, p, k)
  }

  /** A raw string is one token exactly when its inside does not hold the quote and hashes that close it. */
  lemma RawStringsAreOneToken(before: string, prefix: string, n: nat, body: string, after: string)
    requires prefix == "r" || prefix == "br"
    ensures var literal := prefix + Hashes(n) + "\"" + body + "\"" + Hashes(n);
      TokenEnd(before + literal + after, |before|) == Ok(Some(|before + literal|)) <==> !Occurs(body, "\"" + Hashes(n))
  {
    hide StartsWith, HashesEnd, Hashes;
    var closing := "\"" + Hashes(n);
    var literal := prefix + Hashes(n) + "\"" + body + "\"" + Hashes(n);
    var text, i := before + literal + after, |before|;
    Placed(before, literal, after);
    assert literal == prefix + ((Hashes(n) + "\"") + (body + closing));
    Splits(text, prefix, (Hashes(n) + "\"") + (body + closing), i);
    Splits(text, Hashes(n) + "\"", body + closing, i + |prefix|);
    HashesRead(text, i + |prefix|, n);
    RawOpens(text, prefix, i);
    var quote := i + |prefix| + n;
    Splits(text, body, closing, quote + 1);
    FirstClosing(text, body, n, quote + 1);
  }

  lemma RawOpens(text: string, prefix: string, i: nat)
    requires StartsWith(text, prefix, i) && (prefix == "r" || prefix == "br")
    requires i + |prefix| <= |text| && HashesEnd(text, i + |prefix|) < |text| && text[HashesEnd(text, i + |prefix|)] == '"'
    ensures RawOpen(text, i) == Some((i + |prefix|, HashesEnd(text, i + |prefix|)))
    ensures !StartsWith(text, "//", i) && !StartsWith(text, "/*", i)
  {
    hide HashesEnd;
    TwoCharacters(text, "//", i);
    TwoCharacters(text, "/*", i);
    TwoCharacters(text, "br", i);
    OneCharacter(text, 'r', i);
  }

  lemma Inner(text: string, i: nat, j: nat, a: nat, b: nat)
    requires i <= a <= b <= j <= |text|
    ensures text[i..j][a - i..b - i] == text[a..b]
  {
    var inner := text[i..j];
    assert forall k | a - i <= k < b - i :: inner[k] == text[i + k];
  }

  /** A closing does not reach over a quote behind its own. */
  lemma ClosingEnds(text: string, n: nat, m: nat, quote: nat)
    requires StartsWith(text, "\"" + Hashes(n), m) && m < quote < |text| && text[quote] == '"'
    ensures m + 1 + n <= quote
  {
    var closing := "\"" + Hashes(n);
    forall k | m < k < m + 1 + n
      ensures text[k] == '#'
    {
      assert text[k] == text[m..m + |closing|][k - m] == Hashes(n)[k - m - 1];
    }
  }

  /** The first closing after `i` stands behind `body` exactly when there is none in it: no closing begins in `body`
      and ends behind it, since the second one begins with a quote. */
  lemma FirstClosing(text: string, body: string, n: nat, i: nat)
    requires StartsWith(text, body, i) && StartsWith(text, "\"" + Hashes(n), i + |body|)
    ensures i <= |text| && (Find(text, "\"" + Hashes(n), i) == Some(i + |body|) <==> !Occurs(body, "\"" + Hashes(n)))
  {
    hide Find;
    var closing := "\"" + Hashes(n);
    Cut(text, body, i);
    FirstOf(text, closing, i + |body|);
    forall m | i <= m < i + |body|
      ensures StartsWith(text, closing, m) <==> StartsWith(body, closing, m - i)
    {
      if StartsWith(text, closing, m) { ClosingEnds(text, n, m, i + |body|); }
      if m + |closing| <= i + |body| { Inner(text, i, i + |body|, m, m + |closing|); }
    }
    var end := Find(text, closing, i);
    if end.Some? && end.value < i + |body| {
      assert StartsWith(body, closing, end.value - i);
    }
    if Occurs(body, closing) {
      var k: nat :| StartsWith(body, closing, k);
      assert StartsWith(text, closing, i + k);
    }
  }

  // ---------------------------------------------------------------- the scanner

  /** `done` is what the scan has written, and the rest of the text is still to be masked. */
  ghost predicate SoFar(text: string, done: string, i: nat) {
    && i <= |text| && |done| == i
    && Masked(text, 0) == if Masked(text, i).Ok? then Ok(done + Masked(text, i).value) else Masked(text, i)
  }

  lemma TokenDone(text: string, done: string, i: nat, end: nat)
    requires SoFar(text, done, i) && i < |text| && TokenEnd(text, i) == Ok(Some(end))
    ensures SoFar(text, done + Blank(text[i..end]), end)
  {
    hide TokenEnd;
    if Masked(text, end).Ok? {
      assert done + (Blank(text[i..end]) + Masked(text, end).value) == (done + Blank(text[i..end])) + Masked(text, end).value;
    }
  }

  lemma CharacterDone(text: string, done: string, i: nat)
    requires SoFar(text, done, i) && i < |text| && TokenEnd(text, i) == Ok(None)
    ensures SoFar(text, done + [text[i]], i + 1)
  {
    hide TokenEnd;
    if Masked(text, i + 1).Ok? {
      assert done + ([text[i]] + Masked(text, i + 1).value) == (done + [text[i]]) + Masked(text, i + 1).value;
    }
  }

  lemma FaultEnds(text: string, done: string, i: nat)
    requires SoFar(text, done, i) && i < |text| && TokenEnd(text, i).Err?
    ensures Masked(text, 0) == Err(TokenEnd(text, i).error)
  {
  }

  /** The loop over a block comment and the comments nested in it. */
  method SkipBlockComment(text: string, start: nat) returns (end: Option<nat>)
    requires start <= |text|
    ensures end == BlockEnd(text, start, 1)
  {
    var i, depth := start, 1;
    while i < |text| && depth > 0
      invariant start <= i <= |text| && BlockEnd(text, start, 1) == BlockEnd(text, i, depth)
    {
      if StartsWith(text, "/*", i) {
        depth := depth + 1;
        i := i + 2;
      } else if StartsWith(text, "*/", i) {
        depth := depth - 1;
        i := i + 2;
      } else {
        i := i + 1;
      }
    }
    end := if depth != 0 then None else Some(i);
  }

  /** The loop over a string literal. */
  method SkipString(text: string, start: nat) returns (quote: Option<nat>)
    ensures quote == Quote(text, start)
  {
    var i := start;
    while i < |text| && text[i] != '"'
      invariant start <= i && Quote(text, start) == Quote(text, i)
      decreases |text| - i
    {
      i := i + if text[i] == '\\' then 2 else 1;
    }
    quote := if i < |text| then Some(i) else None;
  }

  /** Find the end of the comment or literal at `start`, moving a cursor over it. */
  method SkipToken(text: string, start: nat) returns (r: Result<Option<nat>, Fault>)
    requires start < |text|
    ensures r == TokenEnd(text, start)
  {
    hide Find, HashesEnd, BlockEnd, Quote, CharEnd;
    var i := start;
    if StartsWith(text, "//", i) {
      var end := Find(text, "\n", i);
      i := if end.None? then |text| else end.value;
      return Ok(Some(i));
    } else if StartsWith(text, "/*", i) {
      var end := SkipBlockComment(text, i + 2);
      return if end.None? then Err(UnterminatedBlockComment) else Ok(end);
    } else if RawOpen(text, i).Some? {
      var (begin, quote) := RawOpen(text, i).value;
      var closing := "\"" + text[begin..quote];
      var end := Find(text, closing, quote + 1);
      if end.None? { return Err(UnterminatedRawString); }
      return Ok(Some(end.value + |closing|));
    } else if text[i] == '"' {
      var end := SkipString(text, i + 1);
      return if end.None? then Err(UnterminatedString) else Ok(Some(end.value + 1));
    } else {
      return Ok(CharEnd(text, i));
    }
  }

  /** Overwrite a slice with blanks, keeping its line breaks. */
  method BlankOut(result: array<char>, start: nat, end: nat)
    requires start <= end <= result.Length
    modifies result
    ensures result[..start] == old(result[..start]) && result[end..] == old(result[end..])
    ensures result[start..end] == Blank(old(result[start..end]))
  {
    for k := start to end
      invariant result[..start] == old(result[..start]) && result[k..] == old(result[k..])
      invariant forall n | start <= n < k :: result[n] == Blanked(old(result[n]))
    {
      assert result[k] == old(result[k..])[0];
      result[k] := Blanked(result[k]);
      assert old(result[k..])[1..] == old(result[k + 1..]);
      assert result[k + 1..] == result[k..][1..];
    }
  }

  method RustCode(text: string) returns (r: Result<string, Fault>)
    ensures r == Masked(text, 0)
    ensures r.Ok? ==> Masks(text, r.value) && Masked(r.value, 0) == r
  {
    hide TokenEnd, Masked, Masks;
    var result := new char[|text|](k requires 0 <= k < |text| => text[k]);
    var i := 0;
    StartsSoFar(text);
    while i < |text|
      invariant i <= |text| == result.Length && SoFar(text, result[..i], i)
      invariant result[i..] == text[i..]
    {
      var start := i;
      var token := SkipToken(text, i);
      if token.Err? {
        FaultEnds(text, result[..i], i);
        return Err(token.error);
      }
      if token.value.None? {
        CharacterDone(text, result[..i], i);
        assert result[..i + 1] == result[..i] + [text[i..][0]];
        assert result[i + 1..] == result[i..][1..] == text[i + 1..];
        i := i + 1;
        continue;
      }
      i := token.value.value;
      TokenDone(text, result[..start], start, i);
      ghost var before := result[..start];
      assert result[start..i] == result[start..][..i - start] == text[start..][..i - start] == text[start..i];
      assert result[i..] == result[start..][i - start..] == text[start..][i - start..] == text[i..];
      BlankOut(result, start, i);
      assert result[..i] == result[..start] + result[start..i];
      assert result[..i] == before + Blank(text[start..i]);
    }
    Finished(text, result[..i]);
    assert result[..i] == result[..];
    r := Ok(result[..]);
    MaskingIsFaithfulAndIdempotent(text);
  }

  lemma StartsSoFar(text: string)
    ensures SoFar(text, [], 0)
  {
    hide TokenEnd;
    if Masked(text, 0).Ok? { assert [] + Masked(text, 0).value == Masked(text, 0).value; }
  }

  lemma Finished(text: string, done: string)
    requires SoFar(text, done, |text|)
    ensures Masked(text, 0) == Ok(done)
  {
    hide TokenEnd;
    assert done + "" == done;
  }
}
