/** Number and operand parsing of the assembler (`_parse_number`, `_parse_operand`). */
module Operands {
  import opened Base
  import opened PyText
  import opened Isa

  /** The symbol table: label text as written in the source -> address. */
  type Labels = map<string, int>

  /** The radix prefixes `_parse_number` recognises, tested on the upper-cased text. */
  predicate HasRadixPrefix(num: string) {
    StartsWith(num, "$") || StartsWith(num, "0X") || StartsWith(num, "%") || StartsWith(num, "0B")
  }

  /** `_parse_number`: `$hex`, `0Xhex`, `%bin`, `0Bbin`, a label looked up by its upper-cased
      text, a decimal literal, or else 0 (a forward reference during pass 1). Only a malformed
      literal after a radix prefix raises. */
  function ParseNumber(text: string, labels: Labels): (r: Result<int>)
    ensures r.Err? ==> HasRadixPrefix(Upper(Strip(text)))
    ensures !HasRadixPrefix(Upper(Strip(text))) && Upper(Strip(text)) in labels
            ==> r == Ok(labels[Upper(Strip(text))])
  {
    var num := Upper(Strip(text));
    if StartsWith(num, "$") then PyInt(num[1..], 16)
    else if StartsWith(num, "0X") then PyInt(num, 16)
    else if StartsWith(num, "%") then PyInt(num[1..], 2)
    else if StartsWith(num, "0B") then PyInt(num[2..], 2)
    else if num in labels then Ok(labels[num])
    else
      match PyInt(num, 10)
      case Ok(v) => Ok(v)
      case Err(_) => Ok(0)
  }

  /** The result of `_parse_operand`: the addressing mode, the number it carries (immediate
      value, address or index offset; 0 for a register operand) and the register named. */
  datatype Operand = Operand(mode: Mode, number: int, register: Option<char>)

  /** `_parse_operand`: `#n` is immediate; text containing `,X` is indexed with the rest as
      offset (0 when empty); `A`/`B` is a register; a branch takes a relative target; any
      other number is direct when it is at most $FF (negative values included) and
      extended otherwise. */
  function ParseOperand(operand: string, opcode: string, labels: Labels): (r: Result<Operand>)
    ensures r.Ok? ==> (r.value.mode == IMM <==> StartsWith(Strip(operand), "#"))
    ensures r.Ok? && r.value.mode == DIR ==> r.value.number <= 0xFF
    ensures r.Ok? && r.value.mode == EXT ==> r.value.number > 0xFF
    ensures r.Ok? && r.value.mode == REL ==> IsBranch(Upper(opcode))
    ensures r.Ok? ==> (r.value.mode == INH <==> r.value.register.Some?)
  {
    var op := Strip(operand);
    var up := Upper(op);
    if StartsWith(op, "#") then
      var v :- ParseNumber(op[1..], labels);
      Ok(Operand(IMM, v, None))
    else if Contains(up, ",X") then IndexedOperand(up, labels)
    else if up == "A" || up == "B" then Ok(Operand(INH, 0, Some(up[0])))
    else if IsBranch(Upper(opcode)) then BranchOperand(op, up, labels)
    else MemoryOperand(op, labels)
  }

  /** How `_parse_operand` classifies its text: `#` makes it immediate, otherwise `,X` makes
      it indexed, otherwise a lone `A` or `B` is an inherent register operand, otherwise a
      branch mnemonic makes it relative; the immediate value is the number after `#`. */
  lemma OperandModes(operand: string, opcode: string, labels: Labels)
    ensures var r := ParseOperand(operand, opcode, labels);
      r.Ok? && r.value.mode == IMM ==> ParseNumber(Strip(operand)[1..], labels) == Ok(r.value.number)
    ensures var r := ParseOperand(operand, opcode, labels); r.Ok? ==>
      (r.value.mode == IDX <==> !StartsWith(Strip(operand), "#") && Contains(Upper(Strip(operand)), ",X"))
    ensures var r := ParseOperand(operand, opcode, labels); r.Ok? ==>
      (r.value.mode == INH <==> !StartsWith(Strip(operand), "#") && !Contains(Upper(Strip(operand)), ",X")
                                && (Upper(Strip(operand)) == "A" || Upper(Strip(operand)) == "B"))
    ensures var r := ParseOperand(operand, opcode, labels);
      r.Ok? && r.value.mode == INH ==> r.value.register == Some(Upper(Strip(operand))[0])
    ensures var r := ParseOperand(operand, opcode, labels); r.Ok? ==>
      (r.value.mode == REL <==> !StartsWith(Strip(operand), "#") && !Contains(Upper(Strip(operand)), ",X")
                                && Upper(Strip(operand)) != "A" && Upper(Strip(operand)) != "B"
                                && IsBranch(Upper(opcode)))
  {
  }

  /** `offset,X`: the text without `,X` is the offset, 0 when nothing is left. */
  function IndexedOperand(up: string, labels: Labels): (r: Result<Operand>)
    ensures r.Ok? ==> r.value.mode == IDX && r.value.register.None?
    ensures Strip(Replace(up, ",X", "")) == [] ==> r == Ok(Operand(IDX, 0, None))
    ensures Strip(Replace(up, ",X", "")) != [] ==>
      (r.Ok? <==> ParseNumber(Strip(Replace(up, ",X", "")), labels).Ok?)
    ensures Strip(Replace(up, ",X", "")) != [] && r.Ok? ==>
      r.value.number == ParseNumber(Strip(Replace(up, ",X", "")), labels).value
  {
    var offsetText := Strip(Replace(up, ",X", ""));
    var offset :- if offsetText == [] then Ok(0) else ParseNumber(offsetText, labels);
    Ok(Operand(IDX, offset, None))
  }

  /** A branch target: a label (by its upper-cased name) or a number. */
  function BranchOperand(op: string, up: string, labels: Labels): (r: Result<Operand>)
    ensures r.Ok? ==> r.value.mode == REL && r.value.register.None?
    ensures up in labels ==> r == Ok(Operand(REL, labels[up], None))
    ensures up !in labels ==> (r.Ok? <==> ParseNumber(op, labels).Ok?)
    ensures up !in labels && r.Ok? ==> r.value.number == ParseNumber(op, labels).value
  {
    if up in labels then Ok(Operand(REL, labels[up], None))
    else
      var target :- ParseNumber(op, labels);
      Ok(Operand(REL, target, None))
  }

  /** A memory operand: direct page when the value is at most $FF, extended otherwise. */
  function MemoryOperand(op: string, labels: Labels): (r: Result<Operand>)
    ensures r.Ok? ==> r.value.register.None? && r.value.mode in {DIR, EXT}
    ensures r.Ok? ==> (r.value.mode == DIR <==> r.value.number <= 0xFF)
    ensures r.Ok? <==> ParseNumber(op, labels).Ok?
    ensures r.Ok? ==> r.value.number == ParseNumber(op, labels).value
  {
    var address :- ParseNumber(op, labels);
    Ok(Operand(if address <= 0xFF then DIR else EXT, address, None))
  }

  // ---------------------------------------------------------------------------
  // Properties

  lemma UpperIdentity(s: string)
    requires forall i :: 0 <= i < |s| ==> !('a' <= s[i] <= 'z')
    ensures Upper(s) == s
  {
  }

  lemma {:induction false} DecimalDigitsValue(n: nat)
    ensures DigitsValue(NatToDecimal(n), 10) == n
    ensures forall i :: 0 <= i < |NatToDecimal(n)| ==> IsDigitIn(NatToDecimal(n)[i], 10)
    decreases n
  {
    if n >= 10 {
      DecimalDigitsValue(n / 10);
      DigitCharValue(n % 10);
      DigitsValueSnoc(NatToDecimal(n / 10), DigitChar(n % 10), 10);
    }
  }

  /** A hexadecimal literal written with `$` reads back as its value. */
  lemma ParseHexLiteral(n: int, width: nat, labels: Labels)
    ensures ParseNumber("$" + FormatHex(n, width), labels) == Ok(n)
  {
    var h := FormatHex(n, width);
    var s := "$" + h;
    HexTextIsUpper(n, width);
    NormalisedText(s);
    assert Upper(Strip(s)) == s;
    assert StartsWith(s, "$");
    assert s[1..] == h;
    HexRoundTrip(n, width);
  }

  /** A non-negative value written `0X` followed by its zero-padded hexadecimal digits reads
      back as that value: `int()` with base 16 drops the `0X` itself. */
  lemma ParseHexPrefixLiteral(n: nat, width: nat, labels: Labels)
    ensures ParseNumber("0X" + FormatHex(n, width), labels) == Ok(n)
  {
    HexPrefixRoundTrip(n, width);
    ZeroXNumber(FormatHex(n, width), labels);
  }

  /** A non-empty run of binary digits after `%` or `0B` reads back as its binary value. */
  lemma ParseBinaryLiteral(d: string, labels: Labels)
    requires d != [] && forall i :: 0 <= i < |d| ==> d[i] == '0' || d[i] == '1'
    ensures ParseNumber("%" + d, labels) == Ok(DigitsValue(d, 2))
    ensures ParseNumber("0B" + d, labels) == Ok(DigitsValue(d, 2))
  {
    BinaryDigitsParse(d);
    PercentNumber(d, labels);
    ZeroBNumber(d, labels);
  }

  lemma BinaryDigitsParse(d: string)
    requires d != [] && forall i :: 0 <= i < |d| ==> d[i] == '0' || d[i] == '1'
    ensures PyInt(d, 2) == Ok(DigitsValue(d, 2))
    ensures forall i :: 0 <= i < |d| ==> HexChar(d[i])
  {
    BinaryDigitsWellFormed(d);
    PyIntOfUnsigned(d, 2);
  }

  /** `_parse_number` hands the text after `%` to `int()` with base 2. */
  lemma PercentNumber(h: string, labels: Labels)
    requires h != [] && forall i :: 0 <= i < |h| ==> HexChar(h[i])
    ensures ParseNumber("%" + h, labels) == PyInt(h, 2)
  {
    var s := "%" + h;
    PrefixedTextIsNormal("%", h);
    assert !StartsWith(s, "$") && !StartsWith(s, "0X") && StartsWith(s, "%") && s[1..] == h;
  }

  /** `_parse_number` hands the text after `0B` to `int()` with base 2. */
  lemma ZeroBNumber(h: string, labels: Labels)
    requires h != [] && forall i :: 0 <= i < |h| ==> HexChar(h[i])
    ensures ParseNumber("0B" + h, labels) == PyInt(h, 2)
  {
    var s := "0B" + h;
    PrefixedTextIsNormal("0B", h);
    assert !StartsWith(s, "$") && !StartsWith(s, "0X") && !StartsWith(s, "%");
    assert StartsWith(s, "0B") && s[2..] == h;
  }

  /** `_parse_number` hands the whole text, `0X` included, to `int()` with base 16. */
  lemma ZeroXNumber(h: string, labels: Labels)
    requires h != [] && forall i :: 0 <= i < |h| ==> HexChar(h[i])
    ensures ParseNumber("0X" + h, labels) == PyInt("0X" + h, 16)
  {
    var s := "0X" + h;
    PrefixedTextIsNormal("0X", h);
    assert !StartsWith(s, "$") && StartsWith(s, "0X");
  }

  /** A radix prefix before hexadecimal or binary text is what `_parse_number` inspects. */
  lemma PrefixedTextIsNormal(prefix: string, h: string)
    requires prefix != [] && !IsSpace(prefix[0])
    requires forall i :: 0 <= i < |prefix| ==> !('a' <= prefix[i] <= 'z')
    requires h != [] && forall i :: 0 <= i < |h| ==> HexChar(h[i])
    ensures Upper(Strip(prefix + h)) == prefix + h
  {
    PrefixedTextIsUpper(prefix, h);
    NormalisedText(prefix + h);
  }

  /** A radix prefix before hexadecimal or binary text is neither padded nor lower-case. */
  lemma PrefixedTextIsUpper(prefix: string, h: string)
    requires prefix != [] && !IsSpace(prefix[0])
    requires forall i :: 0 <= i < |prefix| ==> !('a' <= prefix[i] <= 'z')
    requires h != [] && forall i :: 0 <= i < |h| ==> HexChar(h[i])
    ensures var s := prefix + h;
      s != [] && !IsSpace(s[0]) && !IsSpace(s[|s| - 1]) && forall i :: 0 <= i < |s| ==> !('a' <= s[i] <= 'z')
  {
    var s := prefix + h;
    assert s[0] == prefix[0];
    assert s[|s| - 1] == h[|h| - 1];
    forall i | 0 <= i < |s| ensures !('a' <= s[i] <= 'z') {
      if i >= |prefix| {
        assert s[i] == h[i - |prefix|];
      }
    }
  }

  /** Text with no surrounding whitespace and no lower-case letter is what `_parse_number`
      inspects unchanged. */
  lemma NormalisedText(s: string)
    requires s != [] && !IsSpace(s[0]) && !IsSpace(s[|s| - 1])
    requires forall i :: 0 <= i < |s| ==> !('a' <= s[i] <= 'z')
    ensures Upper(Strip(s)) == s
  {
    StripOfTrimmed(s);
    UpperIdentity(s);
  }

  lemma HexTextIsUpper(n: int, width: nat)
    ensures var h := FormatHex(n, width); var s := "$" + h;
      |h| > 0 && !IsSpace(s[0]) && !IsSpace(s[|s| - 1]) && forall i :: 0 <= i < |s| ==> !('a' <= s[i] <= 'z')
  {
    DollarTextIsUpper(FormatHex(n, width));
  }

  /** `$` before hexadecimal text is neither padded nor lower-case. */
  lemma DollarTextIsUpper(h: string)
    requires h != [] && forall i :: 0 <= i < |h| ==> HexChar(h[i])
    ensures var s := "$" + h;
      !IsSpace(s[0]) && !IsSpace(s[|s| - 1]) && forall i :: 0 <= i < |s| ==> !('a' <= s[i] <= 'z')
  {
    var s := "$" + h;
    assert s[|s| - 1] == h[|h| - 1];
    forall i | 0 <= i < |s| ensures !('a' <= s[i] <= 'z') {
      if i > 0 {
        assert s[i] == h[i - 1];
      }
    }
  }

  /** A decimal literal reads back as its value, unless a label has that very name. */
  lemma ParseDecimalLiteral(n: int, labels: Labels)
    requires IntToDecimal(n) !in labels
    ensures ParseNumber(IntToDecimal(n), labels) == Ok(n)
  {
    var s := IntToDecimal(n);
    DecimalText(n);
    NormalisedText(s);
    assert Upper(Strip(s)) == s;
  }

  /** `str(n)` is trimmed, upper-case, has no radix prefix and reads back through `int()`. */
  lemma DecimalText(n: int)
    ensures var s := IntToDecimal(n);
      && s != [] && !IsSpace(s[0]) && !IsSpace(s[|s| - 1])
      && (forall i :: 0 <= i < |s| ==> !('a' <= s[i] <= 'z'))
      && !HasRadixPrefix(s)
      && PyInt(s, 10) == Ok(n)
  {
    DecimalParses(n);
    DecimalShape(n);
  }

  lemma DecimalParses(n: int)
    ensures PyInt(IntToDecimal(n), 10) == Ok(n)
  {
    var m: nat := if n >= 0 then n else -n;
    var d := NatToDecimal(m);
    DecimalDigitsValue(m);
    assert WellFormedDigits(d, 10);
    PyIntOfDigits(n < 0, d, 10);
    assert IntToDecimal(n) == (if n < 0 then "-" else "") + d;
    assert Signed(n < 0, m) == n;
  }

  lemma DecimalShape(n: int)
    ensures var s := IntToDecimal(n);
      && s != [] && !IsSpace(s[0]) && !IsSpace(s[|s| - 1])
      && (forall i :: 0 <= i < |s| ==> !('a' <= s[i] <= 'z'))
      && !HasRadixPrefix(s)
  {
    if n < 0 {
      NegativeShape(NatToDecimal(-n));
    } else {
      NoLeadingZero(n);
      NaturalShape(NatToDecimal(n));
    }
  }

  /** A run of digits without a leading zero is neither padded, lower-case nor prefixed. */
  lemma NaturalShape(d: string)
    requires d != [] && forall i :: 0 <= i < |d| ==> IsDigit(d[i])
    requires |d| >= 2 ==> d[0] != '0'
    ensures d != [] && !IsSpace(d[0]) && !IsSpace(d[|d| - 1])
      && (forall i :: 0 <= i < |d| ==> !('a' <= d[i] <= 'z'))
      && !HasRadixPrefix(d)
  {
    assert IsDigit(d[0]) && IsDigit(d[|d| - 1]);
  }

  /** A minus sign before a run of digits is neither padded, lower-case nor prefixed. */
  lemma NegativeShape(d: string)
    requires d != [] && forall i :: 0 <= i < |d| ==> IsDigit(d[i])
    ensures var s := "-" + d;
      && !IsSpace(s[0]) && !IsSpace(s[|s| - 1])
      && (forall i :: 0 <= i < |s| ==> !('a' <= s[i] <= 'z'))
      && !HasRadixPrefix(s)
  {
    var s := "-" + d;
    assert s[0] == '-';
    assert s[|s| - 1] == d[|d| - 1];
    assert forall i :: 0 < i < |s| ==> s[i] == d[i - 1];
  }

  lemma {:induction false} NoLeadingZero(n: nat)
    ensures |NatToDecimal(n)| >= 2 ==> NatToDecimal(n)[0] != '0'
    decreases n
  {
    if n >= 10 {
      NoLeadingZero(n / 10);
      assert NatToDecimal(n)[0] == NatToDecimal(n / 10)[0];
    }
  }

  /** A label whose name holds a lower-case letter is stored under that spelling but looked
      up upper-cased, so no reference ever finds it: removing it changes no parse. */
  lemma LowerCaseLabelNeverFound(text: string, labels: Labels, name: string)
    requires name in labels && exists i :: 0 <= i < |name| && 'a' <= name[i] <= 'z'
    ensures ParseNumber(text, labels) == ParseNumber(text, labels - {name})
  {
    UpperNeverLower(name, Strip(text));
  }
}
