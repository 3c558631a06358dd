/** The two-pass assembler (`M6800Assembler`): pass 1 binds labels and reserves the size of
    each instruction, pass 2 encodes each line into a listing entry, and the object data is
    read back from the listing into an address -> byte map. */
module Assembly {
  import opened Base
  import opened PyText
  import opened Isa
  import opened Operands
  import opened Encoder

  /** One listing entry of pass 2: source line number, `$XXXX` address, the bytes as
      space-separated two-digit hexadecimal, and the source line stripped. */
  datatype Mapping = Mapping(line: nat, address: string, objectCode: string, assembly: string)

  /** The assembler's fields at one moment. */
  datatype AsmState = AsmState(
    labels: Labels,
    address: int,
    origin: int,
    mappings: seq<Mapping>,
    errors: seq<string>,
    messages: seq<string>)

  const Initial := AsmState(map[], 0, 0, [], [], [])

  /** What `assemble` returns; the formatted listing text is not modelled. */
  datatype Assembled = Assembled(
    success: bool,
    objectData: map<int, int>,
    mappings: seq<Mapping>,
    errors: seq<string>,
    messages: seq<string>,
    labels: Labels)

  // ---------------------------------------------------------------------------
  // Line handling shared by both passes

  /** `_clean_line`: drop everything from the first `;` and strip. */
  function CleanLine(line: string): (r: string)
    ensures ';' !in r
  {
    match Find(line, ';')
    case Some(k) => Strip(line[..k])
    case None => assert ';' !in line; Strip(line)
  }

  /** The cleaned line is the stripped text before the first `;` (all of it when there is
      none): comments go, everything before them stays. */
  lemma CleanLineText(line: string) returns (k: nat)
    ensures k <= |line| && ';' !in line[..k]
    ensures k < |line| <==> ';' in line
    ensures k < |line| ==> line[k] == ';'
    ensures CleanLine(line) == Strip(line[..k])
  {
    match Find(line, ';')
    case Some(j) => k := j;
    case None => k := |line|; assert line[..k] == line;
  }

  /** `_is_valid_label`: non-empty, not starting with a digit, letters, digits and `_` only. */
  predicate IsValidLabel(name: string) {
    name != [] && !IsDigit(name[0]) && forall i :: 0 <= i < |name| ==> IsAlnum(name[i]) || name[i] == '_'
  }

  /** A name that could be a label but is not defined reads as 0: it is neither a radix
      literal nor decimal text, so `_parse_number` falls through to its default. */
  lemma UndefinedLabelIsZero(name: string, labels: Labels)
    requires IsValidLabel(name) && Upper(Strip(name)) !in labels
    ensures ParseNumber(name, labels) == Ok(0)
  {
    assert !IsSpace(name[0]) && !IsSpace(name[|name| - 1]);
    StripOfTrimmed(name);
    var u := Upper(name);
    assert u[0] == UpperChar(name[0]) && u[|u| - 1] == UpperChar(name[|name| - 1]);
    NameIsNotNumber(u);
  }

  /** Text that starts with a letter or `_` has no radix prefix and is not decimal text. */
  lemma NameIsNotNumber(u: string)
    requires u != [] && ('A' <= u[0] <= 'Z' || u[0] == '_') && !IsSpace(u[|u| - 1])
    ensures !HasRadixPrefix(u) && PyInt(u, 10).Err?
  {
    StripOfTrimmed(u);
    assert DigitValue(u[0]) >= 10;
  }

  /** A mnemonic or one of the two directives. */
  predicate IsStatement(op: string) { IsMnemonic(op) || op == "ORG" || op == "END" }

  /** `split(':', 1)` of a line containing a colon: text before it (stripped) and after it (stripped). */
  function ColonSplit(clean: string): (string, string)
    requires ':' in clean
  {
    var k := Find(clean, ':').value;
    (Strip(clean[..k]), Strip(clean[k + 1..]))
  }

  /** A name written without a colon: the first of at least two tokens, when it is a valid
      name and the second token is a statement. */
  predicate HasBareLabel(tokens: seq<string>) {
    |tokens| >= 2 && IsValidLabel(tokens[0]) && IsStatement(Upper(tokens[1]))
  }

  function LineTag(n: nat): string { "Line " + NatToDecimal(n) + ": " }

  // ---------------------------------------------------------------------------
  // Pass 1 as a function of the lines

  /** Outcome of one line: the new state and whether `END` stopped the pass, or the message
      of an exception that escapes `assemble`. */
  type LineOutcome = Result<(AsmState, bool)>

  /** The name part of pass 1: a valid name before a colon, or a bare name, is bound to
      the current address (an earlier binding is overwritten) and removed from the text. */
  function LabelStep(st: AsmState, clean: string): (AsmState, string) {
    if ':' in clean then
      var (name, rest) := ColonSplit(clean);
      if IsValidLabel(name) then (st.(labels := st.labels[name := st.address]), rest)
      else (st, clean)
    else
      var tokens := Split(clean);
      if HasBareLabel(tokens) then (st.(labels := st.labels[tokens[0] := st.address]), Join(" ", tokens[1..]))
      else (st, clean)
  }

  /** One line of `_first_pass`. */
  function Step1(st: AsmState, n: nat, line: string): LineOutcome {
    var clean := CleanLine(line);
    if clean == [] then Ok((st, false))
    else
      var (st1, text) := LabelStep(st, clean);
      Statement1(st1, n, text)
  }

  /** The statement part of one line of `_first_pass`, after any name is bound. */
  function Statement1(st: AsmState, n: nat, text: string): LineOutcome {
    var tokens := Split(text);
    if text == [] || tokens == [] then Ok((st, false))
    else
      var opcode := Upper(tokens[0]);
      if opcode == "ORG" then Ok((if |tokens| < 2 then st else Origin1(st, n, tokens[1]), false))
      else if opcode == "END" then Ok((st, true))
      else if IsMnemonic(opcode) then Instruction1(st, opcode, tokens[1..])
      else Ok((st, false))
  }

  /** An instruction in pass 1: the current address moves past its size. */
  function Instruction1(st: AsmState, opcode: string, operands: seq<string>): LineOutcome
    requires IsMnemonic(opcode)
  {
    var size :- InstructionSize(opcode, operands, st.labels);
    Ok((st.(address := st.address + size), false))
  }

  /** `ORG` in pass 1: the origin and the current address move to the operand, or an
      unreadable operand is recorded as an error. */
  function Origin1(st: AsmState, n: nat, operand: string): AsmState {
    match ParseNumber(operand, st.labels)
    case Ok(v) =>
      st.(origin := v, address := v,
          messages := st.messages + [LineTag(n) + "Origin set to $" + FormatHex(v, 4)])
    case Err(_) => st.(errors := st.errors + [LineTag(n) + "Invalid ORG address: " + operand])
  }

  /** Pass 1 over `lines[i..]`, lines numbered from 1. */
  function Pass1(lines: seq<string>, i: nat, st: AsmState): Result<AsmState>
    requires i <= |lines|
    decreases |lines| - i
  {
    if i == |lines| then Ok(st)
    else
      var (st1, stop) :- Step1(st, i + 1, lines[i]);
      if stop then Ok(st1) else Pass1(lines, i + 1, st1)
  }

  // ---------------------------------------------------------------------------
  // Pass 2 as a function of the lines

  /** The name part of pass 2: text after any colon (even when the name before it is not
      valid), or the line without a bare name. */
  function LabelText2(clean: string): string {
    if ':' in clean then ColonSplit(clean).1
    else
      var tokens := Split(clean);
      if HasBareLabel(tokens) then Join(" ", tokens[1..]) else clean
  }

  /** The byte texts of a listing entry, `f"{byte:02X}"` each. */
  function HexBytes(code: seq<int>): (r: seq<string>)
    ensures |r| == |code|
    ensures forall j :: 0 <= j < |r| ==> r[j] == FormatHex(code[j], 2)
  {
    if code == [] then [] else [FormatHex(code[0], 2)] + HexBytes(code[1..])
  }

  /** The listing entry pass 2 appends for `code` assembled at `address`. */
  function MakeMapping(n: nat, address: int, code: seq<int>, original: string): Mapping {
    Mapping(n, "$" + FormatHex(address, 4), Join(" ", HexBytes(code)), original)
  }

  /** One line of `_second_pass`. */
  function Step2(st: AsmState, n: nat, line: string): LineOutcome {
    var clean := CleanLine(line);
    if clean == [] then Ok((st, false))
    else Statement2(st, n, LabelText2(clean), Strip(line))
  }

  /** The statement part of one line of `_second_pass`; `original` is the stripped line. */
  function Statement2(st: AsmState, n: nat, text: string, original: string): LineOutcome {
    var tokens := Split(text);
    if text == [] || tokens == [] then Ok((st, false))
    else
      var opcode := Upper(tokens[0]);
      if opcode == "ORG" then
        if |tokens| < 2 then Ok((st, false))
        else
          var v :- ParseNumber(tokens[1], st.labels);
          Ok((st.(address := v), false))
      else if opcode == "END" then Ok((st, true))
      else if IsMnemonic(opcode) then Ok((Emit(st, n, opcode, tokens[1..], original), false))
      else Ok((st.(errors := st.errors + [LineTag(n) + "Unknown instruction: " + opcode]), false))
  }

  /** The `try` block of `_second_pass`: a listing entry for the encoded instruction, or the
      encoding error recorded against the line. */
  function Emit(st: AsmState, n: nat, opcode: string, operands: seq<string>, original: string): AsmState
    requires IsMnemonic(opcode)
  {
    match AssembleInstruction(opcode, operands, st.labels, st.address)
    case Ok(code) =>
      st.(mappings := st.mappings + [MakeMapping(n, st.address, code, original)],
          address := st.address + |code|)
    case Err(msg) => st.(errors := st.errors + [LineTag(n) + msg])
  }

  /** Pass 2 over `lines[i..]`. */
  function Pass2(lines: seq<string>, i: nat, st: AsmState): Result<AsmState>
    requires i <= |lines|
    decreases |lines| - i
  {
    if i == |lines| then Ok(st)
    else
      var (st1, stop) :- Step2(st, i + 1, lines[i]);
      if stop then Ok(st1) else Pass2(lines, i + 1, st1)
  }

  /** One step of pass 1, unfolded. */
  lemma Pass1Next(lines: seq<string>, i: nat, st: AsmState)
    requires i < |lines|
    ensures var o := Step1(st, i + 1, lines[i]);
      Pass1(lines, i, st) == if o.Err? then Err(o.msg) else if o.value.1 then Ok(o.value.0) else Pass1(lines, i + 1, o.value.0)
  {
  }

  /** One step of pass 2, unfolded. */
  lemma Pass2Next(lines: seq<string>, i: nat, st: AsmState)
    requires i < |lines|
    ensures var o := Step2(st, i + 1, lines[i]);
      Pass2(lines, i, st) == if o.Err? then Err(o.msg) else if o.value.1 then Ok(o.value.0) else Pass2(lines, i + 1, o.value.0)
  {
  }

  // ---------------------------------------------------------------------------
  // What each pass changes

  /** Every bound name passes `_is_valid_label`. */
  predicate LabelsValid(labels: Labels) { forall name :: name in labels ==> IsValidLabel(name) }

  /** Listing entries in increasing line order, every line number in 1..`bound`. */
  predicate LinesWithin(ms: seq<Mapping>, bound: nat) {
    && (forall k :: 0 <= k < |ms| ==> 1 <= ms[k].line <= bound)
    && (forall j, k :: 0 <= j < k < |ms| ==> ms[j].line < ms[k].line)
  }

  /** What pass 1 may change: it binds valid names only (an earlier binding of the same name
      is overwritten, none is removed), appends errors and messages, and emits no listing. */
  predicate Pass1Change(st: AsmState, r: AsmState) {
    && r.mappings == st.mappings
    && st.errors <= r.errors && st.messages <= r.messages
    && st.labels.Keys <= r.labels.Keys
    && (forall name :: name in r.labels && name !in st.labels ==> IsValidLabel(name))
  }

  /** What pass 2 may change: the symbol table, the origin and the messages stay as they
      are; listing entries and errors are only appended. */
  predicate Pass2Change(st: AsmState, r: AsmState) {
    && r.labels == st.labels && r.origin == st.origin && r.messages == st.messages
    && st.mappings <= r.mappings && st.errors <= r.errors
  }

  lemma LabelStepChange(st: AsmState, clean: string)
    ensures Pass1Change(st, LabelStep(st, clean).0)
    ensures LabelStep(st, clean).0 == st.(labels := LabelStep(st, clean).0.labels)
  {
  }

  /** A statement of pass 1 binds no name: it only moves the addresses and appends errors
      and messages. */
  predicate Moves(st: AsmState, r: AsmState) {
    && r.labels == st.labels && r.mappings == st.mappings
    && st.errors <= r.errors && st.messages <= r.messages
  }

  lemma Statement1Change(st: AsmState, n: nat, text: string)
    ensures var o := Statement1(st, n, text); o.Ok? ==> Moves(st, o.value.0)
  {
    var tokens := Split(text);
    if text == [] || tokens == [] {
      assert Statement1(st, n, text) == Ok((st, false));
    } else {
      var opcode := Upper(tokens[0]);
      if opcode == "ORG" {
        OriginStatement1(st, n, text);
      } else if opcode != "END" && IsMnemonic(opcode) {
        InstructionStatement1(st, n, text);
      } else {
        OtherStatement1(st, n, text);
      }
    }
  }

  lemma OtherStatement1(st: AsmState, n: nat, text: string)
    requires text != [] && Split(text) != []
    requires var opcode := Upper(Split(text)[0]); opcode != "ORG" && (opcode == "END" || !IsMnemonic(opcode))
    ensures Statement1(st, n, text) == Ok((st, Upper(Split(text)[0]) == "END"))
  {
  }

  lemma OriginStatement1(st: AsmState, n: nat, text: string)
    requires text != [] && Split(text) != [] && Upper(Split(text)[0]) == "ORG"
    ensures var o := Statement1(st, n, text); o.Ok? && Moves(st, o.value.0)
  {
    var tokens := Split(text);
    OriginStatement1Is(st, n, text);
    if |tokens| >= 2 {
      Origin1Change(st, n, tokens[1]);
    }
  }

  lemma InstructionStatement1(st: AsmState, n: nat, text: string)
    requires text != [] && Split(text) != []
    requires var opcode := Upper(Split(text)[0]); opcode != "ORG" && opcode != "END" && IsMnemonic(opcode)
    ensures var o := Statement1(st, n, text); o.Ok? ==> Moves(st, o.value.0)
  {
    var tokens := Split(text);
    var size := InstructionSize(Upper(tokens[0]), tokens[1..], st.labels);
    if size.Ok? {
      AddressChange(st, st.address + size.value);
    }
  }

  lemma OriginStatement1Is(st: AsmState, n: nat, text: string)
    requires text != [] && Split(text) != [] && Upper(Split(text)[0]) == "ORG"
    ensures var tokens := Split(text);
      Statement1(st, n, text) == Ok((if |tokens| < 2 then st else Origin1(st, n, tokens[1]), false))
  {
  }

  lemma InstructionStatement1Is(st: AsmState, n: nat, text: string)
    requires text != [] && Split(text) != []
    requires var opcode := Upper(Split(text)[0]); opcode != "ORG" && opcode != "END" && IsMnemonic(opcode)
    ensures Statement1(st, n, text) == Instruction1(st, Upper(Split(text)[0]), Split(text)[1..])
  {
  }

  lemma Origin1Change(st: AsmState, n: nat, operand: string)
    ensures Moves(st, Origin1(st, n, operand))
  {
  }

  lemma AddressChange(st: AsmState, address: int)
    ensures Moves(st, st.(address := address)) && Pass2Change(st, st.(address := address))
  {
  }

  lemma Step1Change(st: AsmState, n: nat, line: string)
    ensures var o := Step1(st, n, line); o.Ok? ==> Pass1Change(st, o.value.0)
  {
    var clean := CleanLine(line);
    if clean != [] {
      var (st1, text) := LabelStep(st, clean);
      LabelStepChange(st, clean);
      Statement1Change(st1, n, text);
      var o := Statement1(st1, n, text);
      if o.Ok? {
        LabelThenMoves(st, st1, o.value.0);
      }
    }
  }

  lemma LabelThenMoves(st: AsmState, st1: AsmState, r: AsmState)
    requires Pass1Change(st, st1) && Moves(st1, r)
    ensures Pass1Change(st, r)
  {
  }

  /** Pass 1 stays within `Pass1Change`; in particular it keeps the symbol table valid. */
  lemma {:induction false} Pass1Changes(lines: seq<string>, i: nat, st: AsmState)
    requires i <= |lines|
    ensures var r := Pass1(lines, i, st); r.Ok? ==> Pass1Change(st, r.value)
    decreases |lines| - i
  {
    if i < |lines| {
      Pass1Next(lines, i, st);
      var o := Step1(st, i + 1, lines[i]);
      Step1Change(st, i + 1, lines[i]);
      if o.Ok? && !o.value.1 {
        Pass1Changes(lines, i + 1, o.value.0);
        var r := Pass1(lines, i + 1, o.value.0);
        if r.Ok? {
          Pass1ChangeTrans(st, o.value.0, r.value);
        }
      }
    } else {
      assert Pass1(lines, i, st) == Ok(st);
    }
  }

  lemma Pass1ChangeTrans(a: AsmState, b: AsmState, c: AsmState)
    requires Pass1Change(a, b) && Pass1Change(b, c)
    ensures Pass1Change(a, c)
  {
  }

  /** A pass-1 change keeps a valid symbol table valid. */
  lemma LabelsKept(st: AsmState, r: AsmState)
    requires LabelsValid(st.labels) && Pass1Change(st, r)
    ensures LabelsValid(r.labels)
  {
  }

  /** The `try` block of pass 2 appends one listing entry, for line `n`, or one error. */
  lemma EmitChange(st: AsmState, n: nat, opcode: string, operands: seq<string>, original: string)
    requires IsMnemonic(opcode)
    ensures Pass2Line(st, n, Emit(st, n, opcode, operands, original))
  {
  }

  /** The outcome of one line of pass 2 appends at most one listing entry, for that line. */
  predicate Pass2Line(st: AsmState, n: nat, r: AsmState) {
    && Pass2Change(st, r)
    && (r.mappings == st.mappings || (|r.mappings| == |st.mappings| + 1 && r.mappings[|st.mappings|].line == n))
  }

  lemma Statement2Change(st: AsmState, n: nat, text: string, original: string)
    ensures var o := Statement2(st, n, text, original); o.Ok? ==> Pass2Line(st, n, o.value.0)
  {
    var tokens := Split(text);
    if text != [] && tokens != [] {
      var opcode := Upper(tokens[0]);
      if opcode == "ORG" {
        if |tokens| >= 2 {
          var v := ParseNumber(tokens[1], st.labels);
          AddressChange(st, if v.Ok? then v.value else st.address);
        }
      } else if opcode != "END" && IsMnemonic(opcode) {
        EmitChange(st, n, opcode, tokens[1..], original);
      }
    }
  }

  lemma Step2Change(st: AsmState, n: nat, line: string)
    ensures var o := Step2(st, n, line); o.Ok? ==> Pass2Line(st, n, o.value.0)
  {
    var clean := CleanLine(line);
    if clean != [] {
      Statement2Change(st, n, LabelText2(clean), Strip(line));
    }
  }

  /** Pass 2 stays within `Pass2Change`. */
  lemma {:induction false} Pass2Changes(lines: seq<string>, i: nat, st: AsmState)
    requires i <= |lines|
    ensures var r := Pass2(lines, i, st); r.Ok? ==> Pass2Change(st, r.value)
    decreases |lines| - i
  {
    if i < |lines| {
      var o := Step2(st, i + 1, lines[i]);
      Step2Change(st, i + 1, lines[i]);
      if o.Ok? && !o.value.1 {
        Pass2Changes(lines, i + 1, o.value.0);
      }
      Pass2Kept(lines, i, st);
    } else {
      assert Pass2(lines, i, st) == Ok(st);
    }
  }

  /** One line of pass 2 followed by the rest stays within `Pass2Change` when the rest does. */
  lemma Pass2Kept(lines: seq<string>, i: nat, st: AsmState)
    requires i < |lines|
    requires var o := Step2(st, i + 1, lines[i]); o.Ok? ==> Pass2Change(st, o.value.0)
    requires var o := Step2(st, i + 1, lines[i]);
      o.Ok? && !o.value.1 && Pass2(lines, i + 1, o.value.0).Ok?
      ==> Pass2Change(o.value.0, Pass2(lines, i + 1, o.value.0).value)
    ensures var r := Pass2(lines, i, st); r.Ok? ==> Pass2Change(st, r.value)
  {
    Pass2Next(lines, i, st);
    var o := Step2(st, i + 1, lines[i]);
    if o.Ok? && !o.value.1 {
      var r := Pass2(lines, i + 1, o.value.0);
      if r.Ok? {
        Pass2ChangeTrans(st, o.value.0, r.value);
      }
    }
  }

  /** Pass 2 emits at most one listing entry per line, in line order. */
  lemma {:induction false} Pass2Lines(lines: seq<string>, i: nat, st: AsmState)
    requires i <= |lines| && LinesWithin(st.mappings, i)
    ensures var r := Pass2(lines, i, st); r.Ok? ==> LinesWithin(r.value.mappings, |lines|)
    decreases |lines| - i
  {
    if i < |lines| {
      Pass2Next(lines, i, st);
      var o := Step2(st, i + 1, lines[i]);
      Step2Change(st, i + 1, lines[i]);
      if o.Ok? {
        LinesWithinStep(st, i + 1, o.value.0);
        if !o.value.1 {
          Pass2Lines(lines, i + 1, o.value.0);
        } else {
          LinesWithinMore(o.value.0.mappings, i + 1, |lines|);
        }
      }
    } else {
      LinesWithinMore(st.mappings, i, |lines|);
    }
  }

  lemma Pass2ChangeTrans(a: AsmState, b: AsmState, c: AsmState)
    requires Pass2Change(a, b) && Pass2Change(b, c)
    ensures Pass2Change(a, c)
  {
  }

  lemma LinesWithinStep(st: AsmState, n: nat, r: AsmState)
    requires n >= 1 && LinesWithin(st.mappings, n - 1) && Pass2Line(st, n, r)
    ensures LinesWithin(r.mappings, n)
  {
    if r.mappings != st.mappings {
      assert r.mappings == st.mappings + [r.mappings[|st.mappings|]];
    }
  }

  lemma LinesWithinMore(ms: seq<Mapping>, bound: nat, more: nat)
    requires LinesWithin(ms, bound) && bound <= more
    ensures LinesWithin(ms, more)
  {
  }

  // ---------------------------------------------------------------------------
  // Object data as a function of the listing

  /** Bytes read back from hexadecimal text from position `i` on, two characters at a time
      (the last chunk may be one character), stored at consecutive addresses. */
  function ChunkData(hex: string, i: nat, address: int, data: map<int, int>): Result<map<int, int>>
    requires i <= |hex|
    decreases |hex| - i
  {
    if i == |hex| then Ok(data)
    else
      var end := if i + 2 <= |hex| then i + 2 else |hex|;
      var b :- PyInt(hex[i..end], 16);
      ChunkData(hex, end, address + 1, data[address := b])
  }

  /** The bytes of one listing entry: its address text without `$`, and its object code
      without spaces. */
  function MappingData(m: Mapping, data: map<int, int>): Result<map<int, int>> {
    var address :- PyInt(Replace(m.address, "$", ""), 16);
    ChunkData(Replace(m.objectCode, " ", ""), 0, address, data)
  }

  /** `_get_object_data` over `ms`, starting from `data`; later entries overwrite earlier ones. */
  function ObjectData(ms: seq<Mapping>, data: map<int, int>): Result<map<int, int>>
    decreases |ms|
  {
    if ms == [] then Ok(data)
    else
      var d :- MappingData(ms[0], data);
      ObjectData(ms[1..], d)
  }

  /** `code` stored at `address`, `address + 1`, ... over `data`. */
  function Layout(address: int, code: seq<int>, data: map<int, int>): (r: map<int, int>)
    decreases |code|
  {
    if code == [] then data else Layout(address + 1, code[1..], data[address := code[0]])
  }

  // ---------------------------------------------------------------------------
  // The listing reads back as the bytes it was made from

  /** The address text of a listing entry reads back as the address. */
  lemma AddressTextRoundTrip(address: int)
    ensures PyInt(Replace("$" + FormatHex(address, 4), "$", ""), 16) == Ok(address)
  {
    var h := FormatHex(address, 4);
    ReplaceCharFront(h, '$');
    ReplaceCharFree(h, '$');
    HexRoundTrip(address, 4);
  }

  /** Removing the spaces from the object code text leaves the byte texts side by side. */
  lemma ObjectCodeText(code: seq<int>)
    ensures Replace(Join(" ", HexBytes(code)), " ", "") == Concat(HexBytes(code))
  {
    var parts := HexBytes(code);
    forall i | 0 <= i < |parts| ensures ' ' !in parts[i] {
      assert parts[i] == FormatHex(code[i], 2);
    }
    ReplaceSpaceInJoin(parts);
  }

  /** Byte texts of bytes in 0..255 are two characters each, so the two-character chunks
      give back the bytes at consecutive addresses. */
  lemma {:induction false} ChunksOfBytes(s: string, i: nat, code: seq<int>, address: int, data: map<int, int>)
    requires AllBytes(code) && i <= |s| && s[i..] == Concat(HexBytes(code))
    ensures ChunkData(s, i, address, data) == Ok(Layout(address, code, data))
    decreases |code|
  {
    if code != [] {
      var h := FormatHex(code[0], 2);
      ConcatHexCons(code);
      SliceAfter(s, i, h, Concat(HexBytes(code[1..])));
      ChunkOfByte(s, i, code[0], address, data);
      assert AllBytes(code[1..]) by {
        forall k | 0 <= k < |code[1..]| ensures 0 <= code[1..][k] < 256 {
          assert code[1..][k] == code[k + 1];
        }
      }
      assert s[i + 2..] == Concat(HexBytes(code[1..]));
      ChunksOfBytes(s, i + 2, code[1..], address + 1, data[address := code[0]]);
    }
  }

  /** The text of the first byte, then the texts of the rest. */
  lemma ConcatHexCons(code: seq<int>)
    requires code != []
    ensures Concat(HexBytes(code)) == FormatHex(code[0], 2) + Concat(HexBytes(code[1..]))
  {
    assert HexBytes(code)[1..] == HexBytes(code[1..]);
  }

  lemma SliceAfter(s: string, i: nat, h: string, rest: string)
    requires i <= |s| && |h| == 2 && s[i..] == h + rest
    ensures i + 2 <= |s| && s[i..i + 2] == h && s[i + 2..] == rest
  {
    assert s[i..][..2] == h;
    assert s[i..][2..] == rest;
  }

  /** One two-character chunk that is the text of a byte reads back as that byte. */
  lemma ChunkOfByte(s: string, i: nat, b: int, address: int, data: map<int, int>)
    requires i + 2 <= |s| && 0 <= b < 256 && s[i..i + 2] == FormatHex(b, 2)
    ensures ChunkData(s, i, address, data) == ChunkData(s, i + 2, address + 1, data[address := b])
  {
    HexRoundTrip(b, 2);
  }

  /** A listing entry pass 2 makes from bytes in 0..255 reads back, in `_get_object_data`,
      as exactly those bytes laid out from its address. */
  lemma MappingRoundTrip(n: nat, address: int, code: seq<int>, original: string, data: map<int, int>)
    requires AllBytes(code)
    ensures MappingData(MakeMapping(n, address, code, original), data) == Ok(Layout(address, code, data))
  {
    AddressTextRoundTrip(address);
    ObjectCodeText(code);
    var hex := Concat(HexBytes(code));
    assert hex[0..] == hex;
    ChunksOfBytes(hex, 0, code, address, data);
  }

  /** `Layout` stores `code[k]` at `address + k` and leaves every other address as it was. */
  lemma {:induction false} LayoutContents(address: int, code: seq<int>, data: map<int, int>)
    ensures var r := Layout(address, code, data);
      && (forall x :: address <= x < address + |code| ==> x in r && r[x] == code[x - address])
      && (forall x :: x in data && !(address <= x < address + |code|) ==> x in r && r[x] == data[x])
      && (forall x :: x in r ==> x in data || address <= x < address + |code|)
    decreases |code|
  {
    if code != [] {
      var d := data[address := code[0]];
      var r := Layout(address, code, data);
      LayoutContents(address + 1, code[1..], d);
      assert r == Layout(address + 1, code[1..], d);
      forall x | address <= x < address + |code| ensures x in r && r[x] == code[x - address] {
        if x > address {
          assert code[1..][x - (address + 1)] == code[x - address];
        } else {
          assert address in d && r[address] == d[address];
        }
      }
    }
  }

  /** Laying out several entries one after the other. */
  function Layouts(addresses: seq<int>, codes: seq<seq<int>>, data: map<int, int>): map<int, int>
    requires |addresses| == |codes|
    decreases |codes|
  {
    if codes == [] then data else Layouts(addresses[1..], codes[1..], Layout(addresses[0], codes[0], data))
  }

  /** A listing whose entries are made from bytes in 0..255 reads back as the layout of
      those bytes, entry after entry (a later entry overwrites an earlier one at the same
      address). */
  lemma {:induction false} ListingRoundTrip(ms: seq<Mapping>, addresses: seq<int>, codes: seq<seq<int>>, data: map<int, int>)
    requires |ms| == |addresses| == |codes|
    requires forall k :: 0 <= k < |ms| ==>
      AllBytes(codes[k]) && ms[k] == MakeMapping(ms[k].line, addresses[k], codes[k], ms[k].assembly)
    ensures ObjectData(ms, data) == Ok(Layouts(addresses, codes, data))
    decreases |ms|
  {
    if ms != [] {
      MappingRoundTrip(ms[0].line, addresses[0], codes[0], ms[0].assembly, data);
      ListingRoundTrip(ms[1..], addresses[1..], codes[1..], Layout(addresses[0], codes[0], data));
    }
  }

  // ---------------------------------------------------------------------------
  // The whole assembly as a function of the source

  /** `assemble(source)`, or the message of an exception that escapes it. */
  function AssembleSource(source: string): Result<Assembled> {
    AssembleLines(SplitOn(Strip(source), '\n'))
  }

  function AssembleLines(lines: seq<string>): Result<Assembled> {
    var s1 :- Pass1(lines, 0, Initial);
    var s2 :- SecondPhase(lines, s1);
    Conclude(s2)
  }

  /** Pass 2 from the origin, run only when pass 1 recorded no error. */
  function SecondPhase(lines: seq<string>, s1: AsmState): Result<AsmState> {
    if s1.errors == [] then Pass2(lines, 0, s1.(address := s1.origin)) else Ok(s1)
  }

  /** The end of `assemble`: success when no error was recorded, and the object data read
      back from the listing only then. */
  function Conclude(s2: AsmState): (r: Result<Assembled>)
    ensures r.Ok? ==> (r.value.success <==> r.value.errors == [])
    ensures r.Ok? && !r.value.success ==> r.value.objectData == map[]
    ensures r.Ok? ==> (r.value.mappings, r.value.errors, r.value.messages, r.value.labels)
                      == (s2.mappings, s2.errors, s2.messages, s2.labels)
    ensures s2.errors != [] ==> r.Ok?
  {
    var success := s2.errors == [];
    var data :- if success then ObjectData(s2.mappings, map[]) else Ok(map[]);
    Ok(Assembled(success, data, s2.mappings, s2.errors, s2.messages, s2.labels))
  }

  /** What `assemble` returns: success exactly when no error was recorded, object data only
      on success, a symbol table of valid names, a listing in line order; when pass 1
      records an error, pass 2 does not run and the listing is empty. */
  lemma AssemblyResult(source: string)
    ensures var r := AssembleSource(source); var lines := SplitOn(Strip(source), '\n');
      r.Ok? ==>
        && (r.value.success <==> r.value.errors == [])
        && (!r.value.success ==> r.value.objectData == map[])
        && LabelsValid(r.value.labels)
        && LinesWithin(r.value.mappings, |lines|)
        && (Pass1(lines, 0, Initial).value.errors != [] ==> r.value.mappings == [])
  {
    var lines := SplitOn(Strip(source), '\n');
    var s1 := Pass1(lines, 0, Initial);
    if s1.Ok? {
      Pass1Changes(lines, 0, Initial);
      LabelsKept(Initial, s1.value);
      SecondPhaseKeeps(lines, s1.value);
    }
  }

  /** The second phase keeps the symbol table and leaves the listing in line order. */
  lemma SecondPhaseKeeps(lines: seq<string>, s1: AsmState)
    requires s1.mappings == []
    ensures var r := SecondPhase(lines, s1);
      r.Ok? ==> r.value.labels == s1.labels && LinesWithin(r.value.mappings, |lines|)
                && (s1.errors != [] ==> r.value.mappings == [])
  {
    if s1.errors == [] {
      Pass2Changes(lines, 0, s1.(address := s1.origin));
      Pass2Lines(lines, 0, s1.(address := s1.origin));
    }
  }

  /** The inner loop of `_get_object_data`: the bytes of one listing entry stored over `data`. */
  method EntryData(item: Mapping, data: map<int, int>) returns (r: Result<map<int, int>>)
    ensures r == MappingData(item, data)
  {
    var address := PyInt(Replace(item.address, "$", ""), 16);
    if address.Err? {
      return Err(address.msg);
    }
    var hex := Replace(item.objectCode, " ", "");
    var addr := address.value;
    var acc := data;
    var i := 0;
    while i < |hex|
      invariant 0 <= i <= |hex|
      invariant ChunkData(hex, i, addr, acc) == MappingData(item, data)
      decreases |hex| - i
    {
      var end := if i + 2 <= |hex| then i + 2 else |hex|;
      var b := PyInt(hex[i..end], 16);
      if b.Err? {
        return Err(b.msg);
      }
      acc := acc[addr := b.value];
      addr := addr + 1;
      i := end;
    }
    return Ok(acc);
  }

  // ---------------------------------------------------------------------------
  // The assembler object

  class Assembler {
    var labels: Labels
    var currentAddress: int
    var originAddress: int
    var assembledLines: seq<Mapping>
    var errors: seq<string>
    var messages: seq<string>

    function State(): AsmState
      reads this
    {
      AsmState(labels, currentAddress, originAddress, assembledLines, errors, messages)
    }

    constructor()
      ensures State() == Initial
    {
      labels := map[];
      currentAddress := 0;
      originAddress := 0;
      assembledLines := [];
      errors := [];
      messages := [];
    }

    /** `assemble`: resets the fields, runs pass 1, runs pass 2 when pass 1 recorded no
        error, and reads the object data back on success. An exception that escapes is
        returned as `Err`. */
    method Assemble(source: string) returns (r: Result<Assembled>)
      modifies this
      ensures r == AssembleSource(source)
      ensures r.Ok? ==> (r.value.mappings, r.value.errors, r.value.messages, r.value.labels)
                        == (assembledLines, errors, messages, labels)
    {
      labels := map[];
      currentAddress := 0;
      originAddress := 0;
      assembledLines := [];
      errors := [];
      messages := [];
      assert State() == Initial;
      var lines := SplitOn(Strip(source), '\n');
      var raised := FirstPass(lines);
      if raised.Some? {
        return Err(raised.value);
      }
      ghost var s1 := State();
      assert Pass1(lines, 0, Initial) == Ok(s1);
      if errors == [] {
        raised := SecondPass(lines);
        if raised.Some? {
          assert SecondPhase(lines, s1) == Err(raised.value);
          return Err(raised.value);
        }
      }
      assert SecondPhase(lines, s1) == Ok(State());
      r := Finish();
    }

    /** The end of `assemble`, once the passes have run. */
    method Finish() returns (r: Result<Assembled>)
      ensures r == Conclude(State())
    {
      var success := errors == [];
      var data: map<int, int> := map[];
      if success {
        var d := GetObjectData();
        if d.Err? {
          return Err(d.msg);
        }
        data := d.value;
      }
      return Ok(Assembled(success, data, assembledLines, errors, messages, labels));
    }

    /** `_first_pass`: returns the message of an exception raised by the size computation. */
    method FirstPass(lines: seq<string>) returns (raised: Option<string>)
      modifies this
      ensures var spec := Pass1(lines, 0, old(State()).(address := old(originAddress)));
        (raised.None? <==> spec.Ok?) && (spec.Ok? ==> State() == spec.value)
        && (spec.Err? ==> raised == Some(spec.msg))
    {
      currentAddress := originAddress;
      ghost var spec := Pass1(lines, 0, State());
      var i := 0;
      while i < |lines|
        invariant 0 <= i <= |lines|
        invariant Pass1(lines, i, State()) == spec
        decreases |lines| - i
      {
        var stop;
        ghost var before := State();
        stop, raised := FirstPassLine(i + 1, lines[i]);
        Pass1Next(lines, i, before);
        if raised.Some? {
          assert spec == Err(raised.value);
          return;
        }
        if stop {
          assert spec == Ok(State());
          return;
        }
        i := i + 1;
      }
      return None;
    }

    /** The body of the `_first_pass` loop for line number `n`. */
    method FirstPassLine(n: nat, line: string) returns (stop: bool, raised: Option<string>)
      modifies this
      ensures var o := Step1(old(State()), n, line);
        (raised.None? <==> o.Ok?) && (o.Ok? ==> State() == o.value.0 && stop == o.value.1)
        && (o.Err? ==> raised == Some(o.msg))
    {
      var clean := CleanLine(line);
      if clean == [] {
        return false, None;
      }
      var text := BindLabel(clean);
      stop, raised := FirstPassStatement(n, text);
    }

    /** The name handling of `_first_pass`: binds a name to the current address and returns
        the rest of the line. */
    method BindLabel(clean: string) returns (text: string)
      modifies this
      ensures (State(), text) == LabelStep(old(State()), clean)
    {
      text := clean;
      if ':' in clean {
        var (name, rest) := ColonSplit(clean);
        if IsValidLabel(name) {
          labels := labels[name := currentAddress];
          text := rest;
        }
      } else {
        var tokens := Split(clean);
        if HasBareLabel(tokens) {
          labels := labels[tokens[0] := currentAddress];
          text := Join(" ", tokens[1..]);
        }
      }
    }

    /** The statement handling of `_first_pass`: `ORG`, `END` or the size of an instruction. */
    method FirstPassStatement(n: nat, text: string) returns (stop: bool, raised: Option<string>)
      modifies this
      ensures var o := Statement1(old(State()), n, text);
        (raised.None? <==> o.Ok?) && (o.Ok? ==> State() == o.value.0 && stop == o.value.1)
        && (o.Err? ==> raised == Some(o.msg))
    {
      stop, raised := false, None;
      var tokens := Split(text);
      if text == [] || tokens == [] {
        assert Statement1(State(), n, text) == Ok((State(), false));
        return;
      }
      var opcode := Upper(tokens[0]);
      if opcode == "ORG" {
        OriginLine(n, text);
      } else if opcode != "END" && IsMnemonic(opcode) {
        raised := InstructionLine(n, text);
      } else {
        OtherStatement1(State(), n, text);
        stop := opcode == "END";
      }
    }

    /** An `ORG` line of `_first_pass`. */
    method OriginLine(n: nat, text: string)
      requires text != [] && Split(text) != [] && Upper(Split(text)[0]) == "ORG"
      modifies this
      ensures Statement1(old(State()), n, text) == Ok((State(), false))
    {
      var tokens := Split(text);
      ghost var st := State();
      OriginStatement1Is(st, n, text);
      if |tokens| >= 2 {
        SetOrigin(n, tokens[1]);
      }
    }

    /** An instruction line of `_first_pass`: the current address moves past its size. */
    method InstructionLine(n: nat, text: string) returns (raised: Option<string>)
      requires text != [] && Split(text) != []
      requires var opcode := Upper(Split(text)[0]); opcode != "ORG" && opcode != "END" && IsMnemonic(opcode)
      modifies this
      ensures var o := Statement1(old(State()), n, text);
        (raised.None? <==> o.Ok?) && (o.Ok? ==> State() == o.value.0 && !o.value.1)
        && (o.Err? ==> raised == Some(o.msg))
    {
      var tokens := Split(text);
      InstructionStatement1Is(State(), n, text);
      var size := InstructionSize(Upper(tokens[0]), tokens[1..], labels);
      if size.Err? {
        return Some(size.msg);
      }
      currentAddress := currentAddress + size.value;
      return None;
    }

    /** `ORG` in `_first_pass`. */
    method SetOrigin(n: nat, operand: string)
      modifies this
      ensures State() == Origin1(old(State()), n, operand)
    {
      ghost var st := State();
      var v := ParseNumber(operand, labels);
      if v.Ok? {
        var message := LineTag(n) + "Origin set to $" + FormatHex(v.value, 4);
        assert Origin1(st, n, operand) == st.(origin := v.value, address := v.value, messages := st.messages + [message]);
        originAddress := v.value;
        currentAddress := v.value;
        messages := messages + [message];
      } else {
        var error := LineTag(n) + "Invalid ORG address: " + operand;
        assert Origin1(st, n, operand) == st.(errors := st.errors + [error]);
        errors := errors + [error];
      }
    }

    /** `_second_pass`: returns the message of an exception raised by an `ORG` operand. */
    method SecondPass(lines: seq<string>) returns (raised: Option<string>)
      modifies this
      ensures var spec := Pass2(lines, 0, old(State()).(address := old(originAddress)));
        (raised.None? <==> spec.Ok?) && (spec.Ok? ==> State() == spec.value)
        && (spec.Err? ==> raised == Some(spec.msg))
    {
      currentAddress := originAddress;
      ghost var spec := Pass2(lines, 0, State());
      var i := 0;
      while i < |lines|
        invariant 0 <= i <= |lines|
        invariant Pass2(lines, i, State()) == spec
        decreases |lines| - i
      {
        var stop;
        ghost var before := State();
        stop, raised := SecondPassLine(i + 1, lines[i]);
        Pass2Next(lines, i, before);
        if raised.Some? {
          assert spec == Err(raised.value);
          return;
        }
        if stop {
          assert spec == Ok(State());
          return;
        }
        i := i + 1;
      }
      return None;
    }

    /** The body of the `_second_pass` loop for line number `n`. */
    method SecondPassLine(n: nat, line: string) returns (stop: bool, raised: Option<string>)
      modifies this
      ensures var o := Step2(old(State()), n, line);
        (raised.None? <==> o.Ok?) && (o.Ok? ==> State() == o.value.0 && stop == o.value.1)
        && (o.Err? ==> raised == Some(o.msg))
    {
      var original := Strip(line);
      var clean := CleanLine(line);
      if clean == [] {
        return false, None;
      }
      stop, raised := SecondPassStatement(n, LabelText2(clean), original);
    }

    /** The statement handling of `_second_pass`: `ORG`, `END`, or one instruction encoded
        into a listing entry (an encoding error is recorded and the pass goes on). */
    method SecondPassStatement(n: nat, text: string, original: string) returns (stop: bool, raised: Option<string>)
      modifies this
      ensures var o := Statement2(old(State()), n, text, original);
        (raised.None? <==> o.Ok?) && (o.Ok? ==> State() == o.value.0 && stop == o.value.1)
        && (o.Err? ==> raised == Some(o.msg))
    {
      stop, raised := false, None;
      var tokens := Split(text);
      if text == [] || tokens == [] {
        return;
      }
      var opcode := Upper(tokens[0]);
      if opcode == "ORG" {
        if |tokens| >= 2 {
          var v := ParseNumber(tokens[1], labels);
          if v.Err? {
            raised := Some(v.msg);
            return;
          }
          currentAddress := v.value;
        }
      } else if opcode == "END" {
        stop := true;
      } else if IsMnemonic(opcode) {
        EmitInstruction(n, opcode, tokens[1..], original);
      } else {
        errors := errors + [LineTag(n) + "Unknown instruction: " + opcode];
      }
    }

    /** The `try` block of `_second_pass`. */
    method EmitInstruction(n: nat, opcode: string, operands: seq<string>, original: string)
      requires IsMnemonic(opcode)
      modifies this
      ensures State() == Emit(old(State()), n, opcode, operands, original)
    {
      var code := AssembleInstruction(opcode, operands, labels, currentAddress);
      if code.Ok? {
        assembledLines := assembledLines + [MakeMapping(n, currentAddress, code.value, original)];
        currentAddress := currentAddress + |code.value|;
      } else {
        errors := errors + [LineTag(n) + code.msg];
      }
    }

    /** `_get_object_data`: the address -> byte map read back from the listing. */
    method GetObjectData() returns (r: Result<map<int, int>>)
      ensures r == ObjectData(assembledLines, map[])
    {
      var data: map<int, int> := map[];
      var k := 0;
      while k < |assembledLines|
        invariant 0 <= k <= |assembledLines|
        invariant ObjectData(assembledLines[k..], data) == ObjectData(assembledLines, map[])
        decreases |assembledLines| - k
      {
        assert assembledLines[k..][1..] == assembledLines[k + 1..];
        var entry := EntryData(assembledLines[k], data);
        if entry.Err? {
          return Err(entry.msg);
        }
        data := entry.value;
        k := k + 1;
      }
      return Ok(data);
    }
  }
}
