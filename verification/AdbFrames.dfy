/**
 * The framed answers of a panel's shell: how they are cut into lines, parsed
 * into named sections, and printed again.
 */
module AdbFrames {
  import opened Wrappers

  const MAX_RESPONSE_BYTES: nat := 32768

  const TAG := "HAPANELD_"

  // ---------------------------------------------------------------------- text and lines

  /** How many bytes a character takes in UTF-8. */
  function CharBytes(c: char): (n: nat)
    ensures n >= 1
  {
    if (c as int) < 0x80 then 1 else if (c as int) < 0x800 then 2 else if (c as int) < 0x10000 then 3 else 4
  }

  function Bytes(s: string): nat {
    if s == "" then 0 else CharBytes(s[0]) + Bytes(s[1..])
  }

  /** The characters that end a line once no carriage return is left. */
  predicate LineBreak(c: char) {
    || c == '\n' || (c as int) == 0x0b || (c as int) == 0x0c
    || (c as int) == 0x1c || (c as int) == 0x1d || (c as int) == 0x1e
    || (c as int) == 0x85 || (c as int) == 0x2028 || (c as int) == 0x2029
  }

  function FirstBreak(s: string): (i: nat)
    ensures i <= |s| && (forall k :: 0 <= k < i ==> !LineBreak(s[k])) && (i < |s| ==> LineBreak(s[i]))
  {
    if s == "" || LineBreak(s[0]) then 0 else 1 + FirstBreak(s[1..])
  }

  function Lines(s: string): seq<string>
    decreases |s|
  {
    if s == "" then []
    else
      var i := FirstBreak(s);
      if i == |s| then [s] else [s[..i]] + Lines(s[i + 1..])
  }

  function Unified(s: string): string
    decreases |s|
  {
    if |s| < 2 then s
    else if s[0] == '\r' && s[1] == '\n' then "\n" + Unified(s[2..])
    else [s[0]] + Unified(s[1..])
  }

  /** Cut an answer into lines, or refuse it. */
  function Decoded(text: string): Option<seq<string>> {
    if text == "" || Bytes(text) > MAX_RESPONSE_BYTES then None
    else
      var t := Unified(text);
      if '\r' in t || t == "" || t[|t| - 1] != '\n' then None else Some(Lines(t))
  }

  predicate Plain(line: string) {
    forall k :: 0 <= k < |line| ==> !LineBreak(line[k]) && line[k] != '\r'
  }

  function Text(lines: seq<string>): string
    decreases |lines|
  {
    if lines == [] then "" else lines[0] + "\n" + Text(lines[1..])
  }

  // --------------------------------------------------------------------------- sections

  /** One section as it stands on the wire: its lines, and its status in digits. */
  datatype Raw = Raw(values: seq<string>, digits: string)

  datatype Section = Section(values: seq<string>, status: nat)

  predicate Tagged(line: string) { TAG <= line }

  predicate Digit(c: char) { '0' <= c <= '9' }

  predicate StatusDigits(s: string) {
    1 <= |s| <= 3 && forall k :: 0 <= k < |s| ==> Digit(s[k])
  }

  predicate RawOk(r: Raw) {
    StatusDigits(r.digits) && forall k :: 0 <= k < |r.values| ==> !Tagged(r.values[k])
  }

  function BeginLine(prefix: string, nonce: string): string { TAG + (prefix + "_BEGIN:" + nonce) }

  function EndLine(prefix: string, nonce: string): string { TAG + (prefix + "_END:" + nonce) }

  function StatusLine(prefix: string, nonce: string, digits: string): string {
    EndLine(prefix, nonce) + (":" + digits)
  }

  function Inner(prefix: string, name: string): string { prefix + "_" + name }

  function PrintedBody(raws: seq<Raw>, prefix: string, nonce: string, names: seq<string>): seq<string>
    requires |raws| == |names|
    decreases |names|
  {
    if names == [] then []
    else
      [BeginLine(Inner(prefix, names[0]), nonce)] + raws[0].values
      + [StatusLine(Inner(prefix, names[0]), nonce, raws[0].digits)]
      + PrintedBody(raws[1..], prefix, nonce, names[1..])
  }

  /** A whole frame, with any status digits. */
  function Frame(raws: seq<Raw>, prefix: string, nonce: string, names: seq<string>): seq<string>
    requires |raws| == |names|
  {
    [BeginLine(prefix, nonce)] + PrintedBody(raws, prefix, nonce, names) + [EndLine(prefix, nonce)]
  }

  // ---------------------------------------------------------------------------- parsing

  /** The digits of a section's closing line, if this is one. */
  function StatusOf(line: string, prefix: string, nonce: string): Option<string> {
    var head := EndLine(prefix, nonce) + ":";
    if head <= line && StatusDigits(line[|head|..]) then Some(line[|head|..]) else None
  }

  /** Read values up to the section's closing line; answer them with what is left. */
  function TakenSection(body: seq<string>, prefix: string, nonce: string): Option<(Raw, seq<string>)>
    decreases |body|
  {
    if body == [] then None
    else
      var digits := StatusOf(body[0], prefix, nonce);
      if digits.Some? then Some((Raw([], digits.value), body[1..]))
      else if Tagged(body[0]) then None
      else
        var rest := TakenSection(body[1..], prefix, nonce);
        if rest.None? then None
        else Some((Raw([body[0]] + rest.value.0.values, rest.value.0.digits), rest.value.1))
  }

  function ParsedBody(body: seq<string>, prefix: string, nonce: string, names: seq<string>): Option<seq<Raw>>
    decreases |names|
  {
    if names == [] then if body == [] then Some([]) else None
    else if body == [] || body[0] != BeginLine(Inner(prefix, names[0]), nonce) then None
    else
      var taken := TakenSection(body[1..], Inner(prefix, names[0]), nonce);
      if taken.None? then None
      else
        var rest := ParsedBody(taken.value.1, prefix, nonce, names[1..]);
        if rest.None? then None else Some([taken.value.0] + rest.value)
  }

  function ParsedFrame(lines: seq<string>, prefix: string, nonce: string, names: seq<string>)
    : Option<seq<Raw>>
  {
    if |lines| < 2 || lines[0] != BeginLine(prefix, nonce) || lines[|lines| - 1] != EndLine(prefix, nonce)
    then None
    else ParsedBody(lines[1..|lines| - 1], prefix, nonce, names)
  }

  lemma StatusPrinted(prefix: string, nonce: string, digits: string)
    requires StatusDigits(digits)
    ensures StatusOf(StatusLine(prefix, nonce, digits), prefix, nonce) == Some(digits)
    ensures Tagged(StatusLine(prefix, nonce, digits))
  {
    var head := EndLine(prefix, nonce) + ":";
    assert StatusLine(prefix, nonce, digits) == head + digits;
    assert TAG <= EndLine(prefix, nonce) <= head <= head + digits;
  }

  lemma StatusRead(line: string, prefix: string, nonce: string)
    requires StatusOf(line, prefix, nonce).Some?
    ensures var d := StatusOf(line, prefix, nonce).value;
            StatusDigits(d) && line == StatusLine(prefix, nonce, d) && Tagged(line)
  {
    var head := EndLine(prefix, nonce) + ":";
    assert line == head + line[|head|..];
    StatusPrinted(prefix, nonce, line[|head|..]);
  }

  lemma {:induction false} TakenPrinted(r: Raw, prefix: string, nonce: string, rest: seq<string>)
    requires RawOk(r)
    ensures TakenSection(r.values + [StatusLine(prefix, nonce, r.digits)] + rest, prefix, nonce) == Some((r, rest))
    decreases |r.values|
  {
    var body := r.values + [StatusLine(prefix, nonce, r.digits)] + rest;
    StatusPrinted(prefix, nonce, r.digits);
    if r.values == [] {
      assert body[1..] == rest;
    } else {
      if StatusOf(body[0], prefix, nonce).Some? { StatusRead(body[0], prefix, nonce); }
      var shorter := Raw(r.values[1..], r.digits);
      TakenPrinted(shorter, prefix, nonce, rest);
      assert body[1..] == shorter.values + [StatusLine(prefix, nonce, r.digits)] + rest;
      assert [r.values[0]] + r.values[1..] == r.values;
    }
  }

  lemma {:induction false} TakenRead(body: seq<string>, prefix: string, nonce: string)
    requires TakenSection(body, prefix, nonce).Some?
    ensures var (r, rest) := TakenSection(body, prefix, nonce).value;
            RawOk(r) && body == r.values + [StatusLine(prefix, nonce, r.digits)] + rest
    decreases |body|
  {
    if StatusOf(body[0], prefix, nonce).Some? {
      StatusRead(body[0], prefix, nonce);
    } else {
      TakenRead(body[1..], prefix, nonce);
      assert body == [body[0]] + body[1..];
    }
  }

  lemma {:induction false} BodyPrinted(raws: seq<Raw>, prefix: string, nonce: string, names: seq<string>)
    requires |raws| == |names| && forall k :: 0 <= k < |raws| ==> RawOk(raws[k])
    ensures ParsedBody(PrintedBody(raws, prefix, nonce, names), prefix, nonce, names) == Some(raws)
    decreases |names|
  {
    hide TakenSection, RawOk, BeginLine, StatusLine, Inner;
    if names != [] {
      var inner := Inner(prefix, names[0]);
      var rest := PrintedBody(raws[1..], prefix, nonce, names[1..]);
      var body := PrintedBody(raws, prefix, nonce, names);
      BodyPrinted(raws[1..], prefix, nonce, names[1..]);
      TakenPrinted(raws[0], inner, nonce, rest);
      assert body[1..] == raws[0].values + [StatusLine(inner, nonce, raws[0].digits)] + rest;
      assert [raws[0]] + raws[1..] == raws;
    }
  }

  lemma {:induction false} BodyRead(body: seq<string>, prefix: string, nonce: string, names: seq<string>)
    requires ParsedBody(body, prefix, nonce, names).Some?
    ensures var raws := ParsedBody(body, prefix, nonce, names).value;
            && |raws| == |names| && (forall k :: 0 <= k < |raws| ==> RawOk(raws[k]))
            && body == PrintedBody(raws, prefix, nonce, names)
    decreases |names|
  {
    hide TakenSection, RawOk, BeginLine, StatusLine, Inner;
    if names != [] {
      var inner := Inner(prefix, names[0]);
      TakenRead(body[1..], inner, nonce);
      var (r, rest) := TakenSection(body[1..], inner, nonce).value;
      BodyRead(rest, prefix, nonce, names[1..]);
      var raws := ParsedBody(body, prefix, nonce, names).value;
      assert raws[1..] == ParsedBody(rest, prefix, nonce, names[1..]).value;
      assert body == [body[0]] + body[1..];
    }
  }

  /**
   * The parser accepts exactly the frames a printer can produce for the names
   * it expects, and tells them all apart: reading is the inverse of printing.
   */
  lemma ParsesExactlyFrames(lines: seq<string>, prefix: string, nonce: string, names: seq<string>, raws: seq<Raw>)
    ensures ParsedFrame(lines, prefix, nonce, names) == Some(raws)
            <==> && |raws| == |names| && (forall k :: 0 <= k < |raws| ==> RawOk(raws[k]))
                 && lines == Frame(raws, prefix, nonce, names)
  {
    hide BeginLine, EndLine, RawOk;
    if ParsedFrame(lines, prefix, nonce, names) == Some(raws) {
      BodyRead(lines[1..|lines| - 1], prefix, nonce, names);
      assert lines == [lines[0]] + lines[1..|lines| - 1] + [lines[|lines| - 1]];
    }
    if |raws| == |names| && (forall k :: 0 <= k < |raws| ==> RawOk(raws[k]))
       && lines == Frame(raws, prefix, nonce, names) {
      BodyPrinted(raws, prefix, nonce, names);
      assert lines[1..|lines| - 1] == PrintedBody(raws, prefix, nonce, names);
    }
  }

  // ---------------------------------------------------------------------------- statuses

  function Value(digits: string): nat
    requires forall k :: 0 <= k < |digits| ==> Digit(digits[k])
    decreases |digits|
  {
    if digits == "" then 0
    else
      assert Digit(digits[|digits| - 1]);
      10 * Value(digits[..|digits| - 1]) + (digits[|digits| - 1] as int - '0' as int)
  }

  function Decimal(n: nat): (s: string)
    ensures forall k :: 0 <= k < |s| ==> Digit(s[k])
    decreases n
  {
    var last := [('0' as int + n % 10) as char];
    if n < 10 then last else Decimal(n / 10) + last
  }

  lemma {:induction false} DecimalValue(n: nat)
    ensures Value(Decimal(n)) == n && |Decimal(n)| >= 1
    decreases n
  {
    if n < 10 {
      assert Decimal(n)[..0] == "";
    } else {
      DecimalValue(n / 10);
      assert Decimal(n)[..|Decimal(n)| - 1] == Decimal(n / 10);
    }
  }

  /** Printing a status again never takes more digits than it was read from. */
  lemma {:induction false} DecimalShort(digits: string)
    requires digits != "" && forall k :: 0 <= k < |digits| ==> Digit(digits[k])
    ensures |Decimal(Value(digits))| <= |digits|
    decreases |digits|
  {
    var front := digits[..|digits| - 1];
    var d := digits[|digits| - 1] as int - '0' as int;
    if front == "" {
      assert Value(digits) == d;
    } else {
      DecimalShort(front);
      assert (10 * Value(front) + d) / 10 == Value(front);
    }
  }

  function Canonical(s: Section): Raw { Raw(s.values, Decimal(s.status)) }

  function Canonicals(sections: seq<Section>): seq<Raw> {
    seq(|sections|, k requires 0 <= k < |sections| => Canonical(sections[k]))
  }

  function Understood(r: Raw): Section
    requires RawOk(r)
  {
    Section(r.values, Value(r.digits))
  }

  // -------------------------------------------------------------------- whole answers

  function PrintedFrame(sections: seq<Section>, prefix: string, nonce: string, names: seq<string>): string
    requires |sections| == |names|
  {
    Text(Frame(Canonicals(sections), prefix, nonce, names))
  }

  /** What the raw sections of an answer mean, if it is an answer. */
  ghost predicate Answers(text: string, prefix: string, nonce: string, names: seq<string>,
                          raws: seq<Raw>, sections: seq<Section>)
  {
    && Decoded(text).Some?
    && ParsedFrame(Decoded(text).value, prefix, nonce, names) == Some(raws)
    && |raws| == |sections|
    && (forall k :: 0 <= k < |raws| ==> RawOk(raws[k]) && sections[k] == Understood(raws[k]))
  }

  lemma {:induction false} UnifiedPlain(s: string)
    requires '\r' !in s
    ensures Unified(s) == s
    decreases |s|
  {
    if |s| >= 2 { UnifiedPlain(s[1..]); }
  }

  lemma {:induction false} LinesOfText(lines: seq<string>)
    requires forall k :: 0 <= k < |lines| ==> Plain(lines[k])
    ensures '\r' !in Text(lines)
    ensures lines != [] ==> Text(lines) != "" && Text(lines)[|Text(lines)| - 1] == '\n'
    decreases |lines|
  {
    if lines != [] {
      LinesOfText(lines[1..]);
      assert Plain(lines[0]);
      var text := lines[0] + "\n" + Text(lines[1..]);
      assert forall i :: 0 <= i < |text| ==> text[i] in lines[0] || text[i] == '\n' || text[i] in Text(lines[1..]);
    }
  }

  lemma {:induction false} TextsLines(lines: seq<string>)
    requires forall k :: 0 <= k < |lines| ==> Plain(lines[k])
    ensures Lines(Text(lines)) == lines
    decreases |lines|
  {
    if lines != [] {
      hide Plain, FirstBreak, Lines;
      var rest := Text(lines[1..]);
      TextsLines(lines[1..]);
      BreakAt(lines[0], rest);
      var text := lines[0] + "\n" + rest;
      LinesStep(text);
      assert text[|lines[0]| + 1..] == rest;
      assert text[..|lines[0]|] == lines[0];
      assert lines == [lines[0]] + lines[1..];
    }
  }

  lemma {:induction false} BreakAt(line: string, rest: string)
    requires Plain(line)
    ensures FirstBreak(line + "\n" + rest) == |line|
    decreases |line|
  {
    if line != "" {
      assert (line + "\n" + rest)[1..] == line[1..] + "\n" + rest;
      BreakAt(line[1..], rest);
    }
  }

  /** A printed answer is read back as exactly what was printed. */
  lemma PrintedIsParsed(sections: seq<Section>, prefix: string, nonce: string, names: seq<string>)
    requires |sections| == |names| && Plain(prefix) && Plain(nonce)
    requires forall k :: 0 <= k < |names| ==> Plain(names[k])
    requires forall k :: 0 <= k < |sections| ==>
               sections[k].status <= 999
               && forall i :: 0 <= i < |sections[k].values| ==>
                    Plain(sections[k].values[i]) && !Tagged(sections[k].values[i])
    requires Bytes(PrintedFrame(sections, prefix, nonce, names)) <= MAX_RESPONSE_BYTES
    ensures Answers(PrintedFrame(sections, prefix, nonce, names), prefix, nonce, names,
                    Canonicals(sections), sections)
  {
    var raws := Canonicals(sections);
    var lines := Frame(raws, prefix, nonce, names);
    forall k | 0 <= k < |raws|
      ensures RawOk(raws[k]) && sections[k] == Understood(raws[k])
      ensures PlainRaw(raws[k])
    {
      CanonicalOk(sections[k]);
    }
    FramePlain(raws, prefix, nonce, names);
    LinesOfText(lines);
    TextsLines(lines);
    UnifiedPlain(Text(lines));
    ParsesExactlyFrames(lines, prefix, nonce, names, raws);
  }

  lemma CanonicalOk(s: Section)
    requires s.status <= 999 && forall i :: 0 <= i < |s.values| ==> !Tagged(s.values[i])
    ensures RawOk(Canonical(s)) && s == Understood(Canonical(s)) && Plain(Canonical(s).digits)
  {
    DecimalValue(s.status);
    var n := s.status;
    assert n < 10 ==> |Decimal(n)| == 1;
    assert 10 <= n < 100 ==> |Decimal(n)| == |Decimal(n / 10)| + 1 && |Decimal(n / 10)| == 1;
    assert 100 <= n ==> |Decimal(n)| == |Decimal(n / 10)| + 1
                        && |Decimal(n / 10)| == |Decimal(n / 10 / 10)| + 1 && |Decimal(n / 10 / 10)| == 1;
  }

  lemma LinePlain(prefix: string, name: string, nonce: string, digits: string)
    requires Plain(prefix) && Plain(name) && Plain(nonce) && Plain(digits)
    ensures Plain(BeginLine(prefix, nonce)) && Plain(EndLine(prefix, nonce))
    ensures Plain(Inner(prefix, name)) && Plain(StatusLine(prefix, nonce, digits))
  {
    PlainConcat(prefix, "_BEGIN:");
    PlainConcat(prefix + "_BEGIN:", nonce);
    PlainConcat(TAG, prefix + "_BEGIN:" + nonce);
    PlainConcat(prefix, "_END:");
    PlainConcat(prefix + "_END:", nonce);
    PlainConcat(TAG, prefix + "_END:" + nonce);
    PlainConcat(":", digits);
    PlainConcat(EndLine(prefix, nonce), ":" + digits);
    PlainConcat(prefix, "_");
    PlainConcat(prefix + "_", name);
  }

  lemma PlainConcat(a: string, b: string)
    requires Plain(a) && Plain(b)
    ensures Plain(a + b)
  {
  }

  predicate PlainRaw(r: Raw) {
    Plain(r.digits) && forall i :: 0 <= i < |r.values| ==> Plain(r.values[i])
  }

  lemma {:induction false} BodyPlain(raws: seq<Raw>, prefix: string, nonce: string, names: seq<string>)
    requires |raws| == |names| && Plain(prefix) && Plain(nonce)
    requires forall k :: 0 <= k < |names| ==> Plain(names[k])
    requires forall k :: 0 <= k < |raws| ==> PlainRaw(raws[k])
    ensures forall i :: 0 <= i < |PrintedBody(raws, prefix, nonce, names)| ==>
              Plain(PrintedBody(raws, prefix, nonce, names)[i])
    decreases |names|
  {
    if names != [] {
      LinePlain(prefix, names[0], nonce, "");
      LinePlain(Inner(prefix, names[0]), "", nonce, raws[0].digits);
      hide Plain, BeginLine, StatusLine, Inner;
      BodyPlain(raws[1..], prefix, nonce, names[1..]);
    }
  }

  lemma FramePlain(raws: seq<Raw>, prefix: string, nonce: string, names: seq<string>)
    requires |raws| == |names| && Plain(prefix) && Plain(nonce)
    requires forall k :: 0 <= k < |names| ==> Plain(names[k])
    requires forall k :: 0 <= k < |raws| ==> PlainRaw(raws[k])
    ensures forall i :: 0 <= i < |Frame(raws, prefix, nonce, names)| ==>
              Plain(Frame(raws, prefix, nonce, names)[i])
  {
    hide PrintedBody;
    BodyPlain(raws, prefix, nonce, names);
    LinePlain(prefix, "", nonce, "");
  }

  // ------------------------------------------------------------- printing a part again

  lemma {:induction false} BytesConcat(a: string, b: string)
    ensures Bytes(a + b) == Bytes(a) + Bytes(b)
    decreases |a|
  {
    if a == "" {
      assert a + b == b;
    } else {
      assert (a + b)[1..] == a[1..] + b;
      BytesConcat(a[1..], b);
    }
  }

  lemma {:induction false} TextConcat(a: seq<string>, b: seq<string>)
    ensures Bytes(Text(a + b)) == Bytes(Text(a)) + Bytes(Text(b))
    decreases |a|
  {
    if a == [] {
      assert a + b == b;
    } else {
      assert (a + b)[1..] == a[1..] + b;
      TextConcat(a[1..], b);
      BytesConcat(a[0] + "\n", Text(a[1..] + b));
      BytesConcat(a[0] + "\n", Text(a[1..]));
    }
  }

  lemma {:induction false} UnifiedShrinks(s: string)
    ensures Bytes(Unified(s)) <= Bytes(s)
    decreases |s|
  {
    if |s| >= 2 {
      if s[0] == '\r' && s[1] == '\n' {
        UnifiedShrinks(s[2..]);
        assert Bytes(s) == CharBytes(s[0]) + CharBytes(s[1]) + Bytes(s[2..]) by {
          assert s[1..][1..] == s[2..];
        }
        BytesConcat("\n", Unified(s[2..]));
      } else {
        UnifiedShrinks(s[1..]);
        assert ([s[0]] + Unified(s[1..]))[1..] == Unified(s[1..]);
      }
    }
  }

  /** Every line end, whatever it was, becomes a single newline. */
  lemma {:induction false} LinesShrink(t: string)
    requires t == "" || LineBreak(t[|t| - 1])
    ensures Bytes(Text(Lines(t))) <= Bytes(t)
    decreases |t|
  {
    hide LineBreak, CharBytes, Unified, Lines, FirstBreak, Bytes, Text;
    if t == "" {
      NoLines();
    } else {
      var i := FirstBreak(t);
      FirstLine(t);
      LinesShrink(t[i + 1..]);
      OneLine(t[..i], t[i], t[i + 1..]);
    }
  }

  lemma NoLines()
    ensures Bytes(Text(Lines(""))) == Bytes("")
  {
  }

  lemma FirstLine(t: string)
    requires t != "" && LineBreak(t[|t| - 1])
    ensures var i := FirstBreak(t);
            && i < |t| && Lines(t) == [t[..i]] + Lines(t[i + 1..])
            && t == t[..i] + ([t[i]] + t[i + 1..])
            && (t[i + 1..] == "" || LineBreak(t[i + 1..][|t[i + 1..]| - 1]))
  {
    hide LineBreak, FirstBreak, Lines;
    BreaksBefore(t);
    LinesStep(t);
    var i := FirstBreak(t);
    assert t[i..] == [t[i]] + t[i + 1..];
    assert t == t[..i] + t[i..];
    assert t[i + 1..] != "" ==> t[i + 1..][|t[i + 1..]| - 1] == t[|t| - 1];
  }

  lemma LinesStep(t: string)
    requires FirstBreak(t) < |t|
    ensures Lines(t) == [t[..FirstBreak(t)]] + Lines(t[FirstBreak(t) + 1..])
  {
    hide LineBreak, FirstBreak;
  }

  lemma {:induction false} BreaksBefore(t: string)
    requires t != "" && LineBreak(t[|t| - 1])
    ensures FirstBreak(t) < |t|
    decreases |t|
  {
    hide LineBreak;
    if !LineBreak(t[0]) { BreaksBefore(t[1..]); }
  }

  lemma OneLine(line: string, c: char, rest: string)
    ensures Bytes(Text([line] + Lines(rest))) == Bytes(line) + 1 + Bytes(Text(Lines(rest)))
    ensures Bytes(line + ([c] + rest)) >= Bytes(line) + 1 + Bytes(rest)
  {
    hide Lines;
    assert ([line] + Lines(rest))[1..] == Lines(rest);
    BytesConcat(line + "\n", Text(Lines(rest)));
    BytesConcat(line, "\n");
    BytesConcat(line, [c] + rest);
    BytesConcat([c], rest);
  }

  lemma {:induction false} LinesUnbroken(t: string)
    ensures forall k :: 0 <= k < |Lines(t)| ==> Unbroken(Lines(t)[k])
    decreases |t|
  {
    hide LineBreak;
    if t != "" {
      var i := FirstBreak(t);
      if i < |t| { LinesUnbroken(t[i + 1..]); }
    }
  }

  predicate Unbroken(line: string) { forall i :: 0 <= i < |line| ==> !LineBreak(line[i]) }

  lemma {:induction false} LinesNoReturn(t: string)
    requires '\r' !in t
    ensures forall k :: 0 <= k < |Lines(t)| ==> '\r' !in Lines(t)[k]
    decreases |t|
  {
    if t != "" {
      var i := FirstBreak(t);
      if i < |t| { LinesNoReturn(t[i + 1..]); }
    }
  }

  lemma DecodedPlain(text: string)
    requires Decoded(text).Some?
    ensures forall k :: 0 <= k < |Decoded(text).value| ==> Plain(Decoded(text).value[k])
    ensures Bytes(Text(Decoded(text).value)) <= MAX_RESPONSE_BYTES
  {
    hide Lines, Unified, Bytes;
    var t := Unified(text);
    UnifiedShrinks(text);
    LinesShrink(t);
    LinesUnbroken(t);
    LinesNoReturn(t);
  }

  /** The canonical form of a part of a frame takes no more room than the frame did. */
  lemma {:induction false} PartFits(
    part: seq<Raw>, raws: seq<Raw>, prefix: string, nonce: string, names: seq<string>)
    requires |part| <= |raws| == |names| && forall k :: 0 <= k < |raws| ==> RawOk(raws[k])
    requires forall k :: 0 <= k < |part| ==> part[k] == Canonical(Understood(raws[k]))
    ensures Bytes(Text(PrintedBody(part, prefix, nonce, names[..|part|])))
            <= Bytes(Text(PrintedBody(raws, prefix, nonce, names)))
    decreases |part|
  {
    if part != [] {
      assert names[..|part|][1..] == names[1..][..|part| - 1];
      PartFits(part[1..], raws[1..], prefix, nonce, names[1..]);
      hide PrintedBody, Decimal, Value, Bytes, Text, BeginLine, StatusLine, Inner, RawOk;
      SectionFits(part[0], raws[0], prefix, nonce, names[0]);
      BodyBytes(part, prefix, nonce, names[..|part|]);
      BodyBytes(raws, prefix, nonce, names);
    }
  }

  function SectionLines(r: Raw, prefix: string, nonce: string, name: string): seq<string> {
    [BeginLine(Inner(prefix, name), nonce)] + r.values + [StatusLine(Inner(prefix, name), nonce, r.digits)]
  }

  lemma BodyBytes(raws: seq<Raw>, prefix: string, nonce: string, names: seq<string>)
    requires |raws| == |names| && names != []
    ensures Bytes(Text(PrintedBody(raws, prefix, nonce, names)))
            == Bytes(Text(SectionLines(raws[0], prefix, nonce, names[0])))
               + Bytes(Text(PrintedBody(raws[1..], prefix, nonce, names[1..])))
  {
    TextConcat(SectionLines(raws[0], prefix, nonce, names[0]),
               PrintedBody(raws[1..], prefix, nonce, names[1..]));
  }

  lemma SectionFits(part: Raw, r: Raw, prefix: string, nonce: string, name: string)
    requires RawOk(r) && part == Canonical(Understood(r))
    ensures Bytes(Text(SectionLines(part, prefix, nonce, name)))
            <= Bytes(Text(SectionLines(r, prefix, nonce, name)))
  {
    var inner := Inner(prefix, name);
    var head := [BeginLine(inner, nonce)] + r.values;
    DecimalShort(r.digits);
    DigitBytes(part.digits);
    DigitBytes(r.digits);
    hide Decimal, Value, BeginLine, EndLine, Inner;
    StatusBytes(inner, nonce, part.digits);
    StatusBytes(inner, nonce, r.digits);
    TextConcat(head, [StatusLine(inner, nonce, part.digits)]);
    TextConcat(head, [StatusLine(inner, nonce, r.digits)]);
  }

  lemma {:induction false} DigitBytes(s: string)
    requires forall k :: 0 <= k < |s| ==> Digit(s[k])
    ensures Bytes(s) == |s|
    decreases |s|
  {
    if s != "" { DigitBytes(s[1..]); }
  }

  lemma StatusBytes(prefix: string, nonce: string, digits: string)
    ensures Bytes(Text([StatusLine(prefix, nonce, digits)])) == Bytes(EndLine(prefix, nonce)) + Bytes(digits) + 2
  {
    var line := StatusLine(prefix, nonce, digits);
    assert [line][1..] == [];
    assert Text([line]) == line + "\n";
    BytesConcat(line, "\n");
    BytesConcat(EndLine(prefix, nonce), ":" + digits);
    BytesConcat(":", digits);
  }

  lemma {:induction false} DecimalBound(digits: string)
    requires forall k :: 0 <= k < |digits| ==> Digit(digits[k])
    ensures |digits| == 0 ==> Value(digits) == 0
    ensures |digits| == 1 ==> Value(digits) <= 9
    ensures |digits| == 2 ==> Value(digits) <= 99
    ensures |digits| == 3 ==> Value(digits) <= 999
    decreases |digits|
  {
    if digits != "" {
      assert Digit(digits[|digits| - 1]);
      DecimalBound(digits[..|digits| - 1]);
    }
  }

  /**
   * Part of an accepted answer, printed again with its statuses in plain form,
   * is itself always accepted: it fits the bound, and reads as those sections.
   */
  lemma PartIsParsedAgain(text: string, prefix: string, nonce: string, names: seq<string>,
                          raws: seq<Raw>, sections: seq<Section>, n: nat)
    requires Answers(text, prefix, nonce, names, raws, sections) && n <= |names|
    requires Plain(prefix) && Plain(nonce) && forall k :: 0 <= k < |names| ==> Plain(names[k])
    ensures n <= |sections|
    ensures Answers(PrintedFrame(sections[..n], prefix, nonce, names[..n]), prefix, nonce, names[..n],
                    Canonicals(sections[..n]), sections[..n])
  {
    var lines := Decoded(text).value;
    ParsesExactlyFrames(lines, prefix, nonce, names, raws);
    DecodedPlain(text);
    var own := sections[..n];
    forall k | 0 <= k < |own|
      ensures own[k].status <= 999
      ensures forall i :: 0 <= i < |own[k].values| ==> Plain(own[k].values[i]) && !Tagged(own[k].values[i])
    {
      DecimalBound(raws[k].digits);
      ValuesPlain(raws, prefix, nonce, names, k);
    }
    hide PrintedBody, Plain, Tagged, RawOk, Decoded, ParsedFrame, Bytes, Text;
    PartFrameFits(Canonicals(own), raws, prefix, nonce, names);
    PrintedIsParsed(own, prefix, nonce, names[..n]);
  }

  lemma PartFrameFits(part: seq<Raw>, raws: seq<Raw>, prefix: string, nonce: string, names: seq<string>)
    requires |part| <= |raws| == |names| && forall k :: 0 <= k < |raws| ==> RawOk(raws[k])
    requires forall k :: 0 <= k < |part| ==> part[k] == Canonical(Understood(raws[k]))
    ensures Bytes(Text(Frame(part, prefix, nonce, names[..|part|]))) <= Bytes(Text(Frame(raws, prefix, nonce, names)))
  {
    PartFits(part, raws, prefix, nonce, names);
    FrameBytes(part, prefix, nonce, names[..|part|]);
    FrameBytes(raws, prefix, nonce, names);
  }

  lemma FrameBytes(raws: seq<Raw>, prefix: string, nonce: string, names: seq<string>)
    requires |raws| == |names|
    ensures Bytes(Text(Frame(raws, prefix, nonce, names)))
            == Bytes(Text([BeginLine(prefix, nonce)])) + Bytes(Text(PrintedBody(raws, prefix, nonce, names)))
               + Bytes(Text([EndLine(prefix, nonce)]))
  {
    var body := PrintedBody(raws, prefix, nonce, names);
    TextConcat([BeginLine(prefix, nonce)] + body, [EndLine(prefix, nonce)]);
    TextConcat([BeginLine(prefix, nonce)], body);
  }

  /** A section's values are lines of the frame. */
  lemma ValuesPlain(raws: seq<Raw>, prefix: string, nonce: string, names: seq<string>, k: nat)
    requires k < |raws| == |names|
    requires var f := Frame(raws, prefix, nonce, names); forall i :: 0 <= i < |f| ==> Plain(f[i])
    ensures forall i :: 0 <= i < |raws[k].values| ==> Plain(raws[k].values[i])
  {
    var f := Frame(raws, prefix, nonce, names);
    var body := PrintedBody(raws, prefix, nonce, names);
    assert forall i :: 0 <= i < |body| ==> f[1 + i] == body[i];
    hide Plain, Frame;
    BodyValues(raws, prefix, nonce, names, k);
  }

  lemma {:induction false} BodyValues(raws: seq<Raw>, prefix: string, nonce: string, names: seq<string>, k: nat)
    requires k < |raws| == |names|
    ensures forall i :: 0 <= i < |raws[k].values| ==> raws[k].values[i] in PrintedBody(raws, prefix, nonce, names)
    decreases |names|
  {
    if k > 0 {
      BodyValues(raws[1..], prefix, nonce, names[1..], k - 1);
    }
  }

  // ------------------------------------------------------------------------ the loops

  function Prepended(parsed: seq<Raw>, rest: Option<seq<Raw>>): Option<seq<Raw>> {
    if rest.None? then None else Some(parsed + rest.value)
  }

  function WithValues(values: seq<string>, taken: Option<(Raw, seq<string>)>): Option<(Raw, seq<string>)> {
    if taken.None? then None
    else Some((Raw(values + taken.value.0.values, taken.value.0.digits), taken.value.1))
  }

  lemma PrependedStep(parsed: seq<Raw>, r: Raw, rest: Option<seq<Raw>>)
    ensures Prepended(parsed, Prepended([r], rest)) == Prepended(parsed + [r], rest)
  {
    if rest.Some? { assert parsed + ([r] + rest.value) == parsed + [r] + rest.value; }
  }

  lemma WithValuesStep(values: seq<string>, line: string, taken: Option<(Raw, seq<string>)>)
    ensures WithValues(values, WithValues([line], taken)) == WithValues(values + [line], taken)
  {
    if taken.Some? {
      assert values + ([line] + taken.value.0.values) == values + [line] + taken.value.0.values;
    }
  }

  lemma WithNothing(taken: Option<(Raw, seq<string>)>)
    ensures WithValues([], taken) == taken
  {
    if taken.Some? { assert [] + taken.value.0.values == taken.value.0.values; }
  }

  /** Advance over one section: its values, up to the closing line. */
  method ReadSection(body: seq<string>, start: nat, prefix: string, nonce: string)
    returns (section: Option<Raw>, next: nat)
    requires start <= |body|
    ensures next <= |body|
    ensures TakenSection(body[start..], prefix, nonce)
            == if section.Some? then Some((section.value, body[next..])) else None
  {
    var values: seq<string> := [];
    next := start;
    WithNothing(TakenSection(body[start..], prefix, nonce));
    while next < |body|
      invariant start <= next <= |body|
      invariant TakenSection(body[start..], prefix, nonce)
                == WithValues(values, TakenSection(body[next..], prefix, nonce))
      decreases |body| - next
    {
      hide StatusOf, Tagged;
      var line := body[next];
      assert body[next..][0] == line && body[next..][1..] == body[next + 1..];
      var digits := StatusOf(line, prefix, nonce);
      if digits.Some? {
        assert values + [] == values;
        return Some(Raw(values, digits.value)), next + 1;
      }
      if Tagged(line) {
        return None, next;
      }
      WithValuesStep(values, line, TakenSection(body[next + 1..], prefix, nonce));
      values := values + [line];
      next := next + 1;
    }
    assert body[next..] == [];
    return None, next;
  }

  /** The parser's own loop over an offset agrees with the definition it is judged by. */
  method ParseSections(lines: seq<string>, prefix: string, nonce: string, names: seq<string>)
    returns (result: Option<seq<Raw>>)
    ensures result == ParsedFrame(lines, prefix, nonce, names)
  {
    hide BeginLine, EndLine, TakenSection, Inner;
    if |lines| < 2 || lines[0] != BeginLine(prefix, nonce) || lines[|lines| - 1] != EndLine(prefix, nonce) {
      return None;
    }
    var body := lines[1..|lines| - 1];
    var offset := 0;
    var parsed: seq<Raw> := [];
    assert names[0..] == names && body[0..] == body;
    PrependedNothing(ParsedBody(body, prefix, nonce, names));
    for i := 0 to |names|
      invariant offset <= |body|
      invariant ParsedBody(body, prefix, nonce, names)
                == Prepended(parsed, ParsedBody(body[offset..], prefix, nonce, names[i..]))
    {
      assert names[i..][0] == names[i] && names[i..][1..] == names[i + 1..];
      if offset >= |body| || body[offset] != BeginLine(Inner(prefix, names[i]), nonce) {
        return None;
      }
      assert body[offset..][1..] == body[offset + 1..];
      var section, next := ReadSection(body, offset + 1, Inner(prefix, names[i]), nonce);
      if section.None? {
        return None;
      }
      PrependedStep(parsed, section.value, ParsedBody(body[next..], prefix, nonce, names[i + 1..]));
      parsed := parsed + [section.value];
      offset := next;
    }
    assert names[|names|..] == [] && parsed + [] == parsed;
    assert body[offset..] == [] <==> offset == |body|;
    return if offset == |body| then Some(parsed) else None;
  }

  lemma PrependedNothing(rest: Option<seq<Raw>>)
    ensures Prepended([], rest) == rest
  {
    if rest.Some? { assert [] + rest.value == rest.value; }
  }

  /** Printing extends one list line by line. */
  method SectionsAsFrame(sections: seq<Section>, prefix: string, nonce: string, names: seq<string>)
    returns (text: string)
    requires |sections| == |names|
    ensures text == PrintedFrame(sections, prefix, nonce, names)
  {
    hide BeginLine, EndLine, StatusLine, Inner, Text, Decimal;
    var raws := Canonicals(sections);
    var lines := [BeginLine(prefix, nonce)];
    assert lines + PrintedBody(raws, prefix, nonce, names)
           == lines + PrintedBody(raws[0..], prefix, nonce, names[0..]) by {
      assert raws[0..] == raws && names[0..] == names;
    }
    for i := 0 to |names|
      invariant [BeginLine(prefix, nonce)] + PrintedBody(raws, prefix, nonce, names)
                == lines + PrintedBody(raws[i..], prefix, nonce, names[i..])
    {
      PrintedStep(raws, prefix, nonce, names, i);
      var rest := PrintedBody(raws[i + 1..], prefix, nonce, names[i + 1..]);
      var section := SectionLines(raws[i], prefix, nonce, names[i]);
      assert lines + (section + rest) == lines + section + rest;
      lines := lines + [BeginLine(Inner(prefix, names[i]), nonce)] + sections[i].values
        + [StatusLine(Inner(prefix, names[i]), nonce, Decimal(sections[i].status))];
    }
    assert raws[|names|..] == [] && names[|names|..] == [] && lines + [] == lines;
    assert PrintedBody(raws[|names|..], prefix, nonce, names[|names|..]) == [];
    assert lines == [BeginLine(prefix, nonce)] + PrintedBody(raws, prefix, nonce, names);
    lines := lines + [EndLine(prefix, nonce)];
    text := Text(lines);
  }

  lemma PrintedStep(raws: seq<Raw>, prefix: string, nonce: string, names: seq<string>, i: nat)
    requires |raws| == |names| && i < |names|
    ensures PrintedBody(raws[i..], prefix, nonce, names[i..])
            == SectionLines(raws[i], prefix, nonce, names[i])
               + PrintedBody(raws[i + 1..], prefix, nonce, names[i + 1..])
  {
    hide BeginLine, StatusLine, Inner;
    assert raws[i..][1..] == raws[i + 1..] && names[i..][1..] == names[i + 1..];
  }
}
