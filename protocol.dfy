/** The text exchanged between the pump and the simulated body.

    Pump to body: one message per successful cycle, two zero-padded digits of insulin
    units followed by two of glucagon units (Pump.cpp, injectHormoneToBody).
    Body to pump: the first line of the sensor file, at most three characters,
    read with `getline(line, 4)` and converted with `atoi`; a file that cannot
    be opened reads as -1 (Pump.cpp, readBloodSugarSensor). The file handling
    itself is not modelled: the encoder returns the text and the reader takes
    the file's content, or None when it cannot be opened. */
module Protocol {
  import opened Decimal

  datatype Option<T> = None | Some(value: T)

  /** What the body learns from one pump message. */
  datatype Injection = Injection(insulinUnits: nat, glucagonUnits: nat)

  // ---------------------------------------------------------------------
  // Pump -> body

  /** The message injectHormoneToBody writes: the amount, preceded by "0"
      when it is below 10, then "00" for insulin; "00" first for glucagon.
      There is no upper cap. */
  function EncodeInjection(amount: int, insulin: bool): string {
    var padded := (if amount < 10 then "0" else "") + IntToString(amount);
    if insulin then padded + "00" else "00" + padded
  }

  /** The intended wire format: exactly four digits, two of insulin units
      followed by two of glucagon units. */
  function DecodeInjection(msg: string): Option<Injection> {
    if |msg| == 4 && AllDigits(msg) then
      Some(Injection(ValueOf(msg[..2]), ValueOf(msg[2..])))
    else
      None
  }

  lemma TwoDigits(amount: int)
    requires 0 <= amount <= 99
    ensures var p := (if amount < 10 then "0" else "") + IntToString(amount);
      |p| == 2 && AllDigits(p) && ValueOf(p) == amount
  {
    ValueOfDecimalDigits(amount);
    if amount >= 10 {
      DecimalDigitsLength(amount, 2);
      DecimalDigitsLength(amount, 1);
    } else {
      var p := "0" + IntToString(amount);
      assert p[..1] == "0";
    }
  }

  /** Every dose of 0..99 units is sent as four digits that the intended
      format reads back as that dose of the chosen hormone and none of the
      other. */
  lemma EncodeDecodeInjection(amount: int, insulin: bool)
    requires 0 <= amount <= 99
    ensures |EncodeInjection(amount, insulin)| == 4
    ensures DecodeInjection(EncodeInjection(amount, insulin))
         == Some(if insulin then Injection(amount, 0) else Injection(0, amount))
  {
    TwoDigits(amount);
    var p := (if amount < 10 then "0" else "") + IntToString(amount);
    var msg := EncodeInjection(amount, insulin);
    assert ValueOf("00") == 0 by {
      assert "00"[..1] == "0";
    }
    if insulin {
      assert msg[..2] == p && msg[2..] == "00";
      assert AllDigits(msg) by {
        forall i | 0 <= i < 4 ensures IsDigit(msg[i]) {
          if i < 2 { assert msg[i] == p[i]; }
        }
      }
    } else {
      assert msg[..2] == "00" && msg[2..] == p;
      assert AllDigits(msg) by {
        forall i | 0 <= i < 4 ensures IsDigit(msg[i]) {
          if i >= 2 { assert msg[i] == p[i - 2]; }
        }
      }
    }
  }

  /** A zero dose is "0000" whichever hormone is selected. */
  lemma ZeroDoseMessage(insulin: bool)
    ensures EncodeInjection(0, insulin) == "0000"
  {
  }

  /** Doses of 100 units or more are not capped: the message grows past four
      characters and no longer fits the format. */
  lemma LargeDoseBreaksFormat(amount: int, insulin: bool)
    requires amount >= 100
    ensures |EncodeInjection(amount, insulin)| >= 5
    ensures DecodeInjection(EncodeInjection(amount, insulin)).None?
  {
    DecimalDigitsLength(amount, 2);
  }

  // ---------------------------------------------------------------------
  // Body -> pump

  /** What `getline(line, 4)` stores: the characters before the first
      newline, at most `room` of them. */
  function TakeLine(text: string, room: nat): (line: string)
    ensures |line| <= room && |line| <= |text|
    ensures line == text[..|line|]
    ensures '\n' !in line
    ensures |line| == room || |line| == |text| || text[|line|] == '\n'
  {
    if room == 0 || text == [] || text[0] == '\n' then []
    else [text[0]] + TakeLine(text[1..], room - 1)
  }

  predicate IsSpace(c: char) {
    c == ' ' || c == '\t' || c == '\n' || c == '\r' || c == 11 as char || c == 12 as char
  }

  function SkipSpaces(s: string): (t: string)
    ensures |t| <= |s|
    ensures t == s[|s| - |t|..]
    ensures t == [] || !IsSpace(t[0])
    ensures forall i :: 0 <= i < |s| - |t| ==> IsSpace(s[i])
  {
    if s != [] && IsSpace(s[0]) then SkipSpaces(s[1..]) else s
  }

  /** The longest prefix of decimal digits. */
  function DigitPrefix(s: string): (d: string)
    ensures |d| <= |s| && AllDigits(d)
    ensures d == s[..|d|]
    ensures |d| < |s| ==> !IsDigit(s[|d|])
  {
    if s != [] && IsDigit(s[0]) then [s[0]] + DigitPrefix(s[1..]) else []
  }

  /** C's atoi: leading white space, an optional sign, then digits up to the
      first non-digit; no digits at all gives 0. */
  function Atoi(s: string): int {
    var t := SkipSpaces(s);
    if t != [] && t[0] == '-' then -(ValueOf(DigitPrefix(t[1..])) as int)
    else if t != [] && t[0] == '+' then ValueOf(DigitPrefix(t[1..]))
    else ValueOf(DigitPrefix(t))
  }

  /** readBloodSugarSensor: -1 when the file cannot be opened, otherwise atoi
      of the first at most three characters of its first line. */
  function ReadBloodSugarSensor(file: Option<string>): int {
    match file
    case None => -1
    case Some(text) => Atoi(TakeLine(text, 3))
  }

  /** A reading from an existing file lies in -99..999, the values three
      characters can spell. */
  lemma SensorReadingRange(text: string)
    ensures -99 <= ReadBloodSugarSensor(Some(text)) <= 999
  {
    var t := SkipSpaces(TakeLine(text, 3));
    assert Pow10(2) == 100 && Pow10(3) == 1000;
    if t != [] && (t[0] == '-' || t[0] == '+') {
      var d := DigitPrefix(t[1..]);
      ValueOfBound(d);
      Pow10Monotone(|d|, 2);
    } else {
      var d := DigitPrefix(t);
      ValueOfBound(d);
      Pow10Monotone(|d|, 3);
    }
  }

  /** A level of 0..999 written in decimal, alone on the first line, is read
      back exactly. */
  lemma SensorRoundTrip(n: nat, rest: string)
    requires n <= 999
    requires rest == [] || rest[0] == '\n'
    ensures ReadBloodSugarSensor(Some(DecimalDigits(n) + rest)) == n
  {
    var d := DecimalDigits(n);
    assert |d| <= 3 by {
      DecimalDigitsLength(n, 3);
    }
    assert '\n' !in d by {
      NoNewlineInDigits(d);
    }
    TakeLineOfLine(d, rest, 3);
    AtoiOfDigits(d);
    ValueOfDecimalDigits(n);
  }

  lemma NoNewlineInDigits(d: string)
    requires AllDigits(d)
    ensures '\n' !in d
  {
    forall i | 0 <= i < |d| ensures d[i] != '\n' {
      assert IsDigit(d[i]);
    }
  }

  /** atoi reads a non-empty string of digits as the number it denotes. */
  lemma AtoiOfDigits(d: string)
    requires d != [] && AllDigits(d)
    ensures Atoi(d) == ValueOf(d)
  {
    assert IsDigit(d[0]);
    assert SkipSpaces(d) == d;
    DigitPrefixOfDigits(d);
  }

  lemma {:induction false} TakeLineOfLine(line: string, rest: string, room: nat)
    requires '\n' !in line && |line| <= room
    requires rest == [] || rest[0] == '\n'
    ensures TakeLine(line + rest, room) == line
  {
    if line != [] {
      assert (line + rest)[1..] == line[1..] + rest;
      TakeLineOfLine(line[1..], rest, room - 1);
    }
  }

  lemma {:induction false} DigitPrefixOfDigits(d: string)
    requires AllDigits(d)
    ensures DigitPrefix(d) == d
  {
    if d != [] {
      DigitPrefixOfDigits(d[1..]);
    }
  }

  /** Content that does not start with a digit, a sign or white space reads
      as 0, a plausible-looking level, instead of being rejected. */
  lemma NonNumericReadsAsZero(text: string)
    requires text != [] && !IsDigit(text[0]) && !IsSpace(text[0])
    requires text[0] != '-' && text[0] != '+'
    ensures ReadBloodSugarSensor(Some(text)) == 0
  {
    var line := TakeLine(text, 3);
    if line != [] {
      assert line[0] == text[0];
    }
  }

  /** Only three characters are read: a level of 1000 is read as 100. */
  lemma FourDigitsReadAsThree()
    ensures ReadBloodSugarSensor(Some("1000")) == 100
  {
    var text := "1000";
    assert text[1..] == "000" && "000"[1..] == "00" && "00"[1..] == "0";
    assert TakeLine("00", 1) == "0";
    assert TakeLine("000", 2) == "00";
    var line := TakeLine(text, 3);
    assert line == "100";
    assert !IsSpace(line[0]);
    assert SkipSpaces(line) == line;
    DigitPrefixOfDigits(line);
    assert ValueOf("1") == 1 by {
      assert "1"[..0] == "";
    }
    assert ValueOf("10") == 10 by {
      assert "10"[..1] == "1";
    }
    assert line[..2] == "10";
  }

  /** The body can spell the "no body" value: a file holding "-1" reads the
      same as a missing file. */
  lemma MinusOneIsIndistinguishable()
    ensures ReadBloodSugarSensor(Some("-1")) == ReadBloodSugarSensor(None) == -1
  {
    var line := "-1";
    assert TakeLine(line[1..], 2) == "1";
    assert TakeLine(line, 3) == line;
    assert !IsSpace(line[0]);
    assert SkipSpaces(line) == line;
    assert line[1..] == "1";
    DigitPrefixOfDigits("1");
    assert ValueOf("1") == 1;
  }
}
