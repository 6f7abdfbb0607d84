/**
 * The settings dialog (`SettingsDialog`): the two validators of the endpoint text and the OK
 * button that commits a valid endpoint to the client.
 */
module Settings {
  import opened Wrappers
  import opened Decimal
  import Session

  // ---------------------------------------------------------------------------------------------
  // checkIp: the pattern ^((O)\.){3}(O)$, where O is the alternation
  //   0 | 1\d?\d? | 2[0-4]?\d? | 25[0-5]? | [3-9]\d?
  // ---------------------------------------------------------------------------------------------

  /** `0` */
  predicate AltZero(s: string) { s == "0" }

  /** `1\d?\d?` */
  predicate AltOne(s: string)
  {
    1 <= |s| <= 3 && s[0] == '1' && forall i :: 1 <= i < |s| ==> IsDigit(s[i])
  }

  /** `2[0-4]?\d?`: the optional `[0-4]` is only seen in a three-character match. */
  predicate AltTwo(s: string)
  {
    1 <= |s| <= 3 && s[0] == '2'
    && (|s| == 2 ==> IsDigit(s[1]))
    && (|s| == 3 ==> '0' <= s[1] <= '4' && IsDigit(s[2]))
  }

  /** `25[0-5]?` */
  predicate AltTwoFive(s: string)
  {
    2 <= |s| <= 3 && s[0] == '2' && s[1] == '5' && (|s| == 3 ==> '0' <= s[2] <= '5')
  }

  /** `[3-9]\d?` */
  predicate AltThreeToNine(s: string)
  {
    1 <= |s| <= 2 && '3' <= s[0] <= '9' && (|s| == 2 ==> IsDigit(s[1]))
  }

  /** One octet of the pattern: the five-way alternation. */
  predicate Octet(s: string)
  {
    AltZero(s) || AltOne(s) || AltTwo(s) || AltTwoFive(s) || AltThreeToNine(s)
  }

  /** The text between the dots, in order (a string without dots is one field). */
  function SplitDots(s: string): (fields: seq<string>)
    ensures |fields| >= 1
  {
    if s == [] then [""]
    else
      var rest := SplitDots(s[1..]);
      if s[0] == '.' then [""] + rest else [[s[0]] + rest[0]] + rest[1..]
  }

  /**
   * `checkIp`: the whole text matches the pattern. Octets contain no dot, so a match is exactly
   * four dot-separated fields that are each an octet.
   */
  predicate CheckIp(text: string)
  {
    var fields := SplitDots(text);
    |fields| == 4 && forall i :: 0 <= i < 4 ==> Octet(fields[i])
  }

  /** Fields joined with dots: the inverse of `SplitDots`. */
  function JoinDots(fields: seq<string>): string
    requires |fields| >= 1
  {
    if |fields| == 1 then fields[0] else fields[0] + "." + JoinDots(fields[1..])
  }

  /** The dotted-quad text of four numbers. */
  function Dotted(a: nat, b: nat, c: nat, d: nat): string
  {
    JoinDots([NatToString(a), NatToString(b), NatToString(c), NatToString(d)])
  }

  // ---------------------------------------------------------------------------------------------
  // checkPort
  // ---------------------------------------------------------------------------------------------

  /** Port text `Integer.parseInt` accepts without throwing: digits only, value within an `int`. */
  predicate PortText(text: string)
  {
    AllDigits(text) && DigitsValue(text) < 0x8000_0000
  }

  /** `checkPort`: false for empty text, otherwise whether the parsed value lies in [1024, 65535]. */
  predicate CheckPort(text: string)
    requires PortText(text)
  {
    if text == "" then false
    else
      var port := DigitsValue(text);
      1024 <= port && port <= 65535
  }

  // ---------------------------------------------------------------------------------------------
  // Lemmas about the validators
  // ---------------------------------------------------------------------------------------------

  /** The value of a digit string of length 1, 2 or 3, digit by digit. */
  lemma ShortDigitsValue(s: string)
    requires AllDigits(s) && 1 <= |s| <= 3
    ensures |s| == 1 ==> DigitsValue(s) == DigitValue(s[0])
    ensures |s| == 2 ==> DigitsValue(s) == 10 * DigitValue(s[0]) + DigitValue(s[1])
    ensures |s| == 3 ==> DigitsValue(s) == 100 * DigitValue(s[0]) + 10 * DigitValue(s[1]) + DigitValue(s[2])
  {
    var p := s[..|s| - 1];
    if |s| >= 2 {
      var q := p[..|p| - 1];
      assert p[0] == s[0];
      if |s| == 3 {
        assert q == [s[0]] && p[1] == s[1];
      } else {
        assert p == [s[0]];
      }
    }
  }

  /** Every octet the pattern accepts is the decimal text, without leading zero, of a value 0..255. */
  lemma OctetIsByte(s: string)
    requires Octet(s)
    ensures Canonical(s) && DigitsValue(s) <= 255
    ensures NatToString(DigitsValue(s)) == s
  {
    assert AllDigits(s);
    ShortDigitsValue(s);
    CanonicalRoundTrip(s);
  }

  /** The decimal text of every value 0..255 is an octet the pattern accepts. */
  lemma ByteIsOctet(v: nat)
    requires v <= 255
    ensures Octet(NatToString(v))
  {
    var s := NatToString(v);
    if v < 10 {
      assert s == [DigitChar(v)];
    } else if v < 100 {
      assert NatToString(v / 10) == [DigitChar(v / 10)];
      assert s == [DigitChar(v / 10), DigitChar(v % 10)];
    } else {
      var h := v / 100;
      var t := v / 10 % 10;
      assert NatToString(v / 10 / 10) == [DigitChar(h)];
      assert NatToString(v / 10) == [DigitChar(h), DigitChar(t)];
      assert s == [DigitChar(h), DigitChar(t), DigitChar(v % 10)];
      if h == 2 && t == 5 {
        assert AltTwoFive(s);
      }
    }
  }

  /** The octets are exactly the decimal texts of 0..255. */
  lemma OctetIff(s: string)
    ensures Octet(s) <==> exists v :: 0 <= v <= 255 && s == NatToString(v)
  {
    if Octet(s) {
      OctetIsByte(s);
    }
    if exists v :: 0 <= v <= 255 && s == NatToString(v) {
      var v :| 0 <= v <= 255 && s == NatToString(v);
      ByteIsOctet(v);
    }
  }

  /** A field without dots followed by a dot splits off as the first field. */
  lemma {:induction false} SplitDotsCons(x: string, rest: string)
    requires '.' !in x
    ensures SplitDots(x + "." + rest) == [x] + SplitDots(rest)
  {
    if x != [] {
      assert (x + "." + rest)[1..] == x[1..] + "." + rest;
      SplitDotsCons(x[1..], rest);
      assert [x[0]] + x[1..] == x;
    } else {
      assert x + "." + rest == "." + rest;
    }
  }

  /** Text without dots is a single field. */
  lemma {:induction false} SplitDotsSingle(x: string)
    requires '.' !in x
    ensures SplitDots(x) == [x]
  {
    if x != [] {
      SplitDotsSingle(x[1..]);
      assert [x[0]] + x[1..] == x;
    }
  }

  /** Joining the fields back with dots gives the original text, and no field holds a dot. */
  lemma {:induction false} SplitDotsJoin(s: string)
    ensures JoinDots(SplitDots(s)) == s
    ensures forall i :: 0 <= i < |SplitDots(s)| ==> '.' !in SplitDots(s)[i]
  {
    if s != [] {
      SplitDotsJoin(s[1..]);
      var rest := SplitDots(s[1..]);
      var f := SplitDots(s);
      if s[0] == '.' {
        assert f == [""] + rest;
        assert f[1..] == rest;
        assert s == [s[0]] + s[1..];
        forall i | 0 <= i < |f| ensures '.' !in f[i] {
          if i > 0 { assert f[i] == rest[i - 1]; }
        }
      } else {
        assert f[0] == [s[0]] + rest[0];
        forall i | 0 <= i < |f| ensures '.' !in f[i] {
          if i > 0 { assert f[i] == rest[i]; }
        }
        if |rest| == 1 {
          assert s == [s[0]] + s[1..];
        } else {
          assert f[1..] == rest[1..];
          assert JoinDots(rest) == rest[0] + "." + JoinDots(rest[1..]);
          assert s == [s[0]] + s[1..];
        }
      }
    }
  }

  /** Splitting dot-free fields joined with dots gives the fields back. */
  lemma {:induction false} SplitJoinDots(fields: seq<string>)
    requires |fields| >= 1
    requires forall i :: 0 <= i < |fields| ==> '.' !in fields[i]
    ensures SplitDots(JoinDots(fields)) == fields
  {
    if |fields| == 1 {
      SplitDotsSingle(fields[0]);
    } else {
      SplitJoinDots(fields[1..]);
      SplitDotsCons(fields[0], JoinDots(fields[1..]));
    }
  }

  /** Decimal text never contains a dot. */
  lemma NoDotInDecimal(n: nat)
    ensures '.' !in NatToString(n)
  {
  }

  /** The fields of a dotted quad of numbers are their decimal texts. */
  lemma SplitDotted(a: nat, b: nat, c: nat, d: nat)
    ensures SplitDots(Dotted(a, b, c, d)) == [NatToString(a), NatToString(b), NatToString(c), NatToString(d)]
  {
    var f := [NatToString(a), NatToString(b), NatToString(c), NatToString(d)];
    NoDotInDecimal(a); NoDotInDecimal(b); NoDotInDecimal(c); NoDotInDecimal(d);
    SplitJoinDots(f);
  }

  /**
   * `checkIp` accepts a text exactly when it is the dotted quad, written without leading zeros,
   * of four values in 0..255.
   */
  lemma CheckIpIff(text: string)
    ensures CheckIp(text) <==>
            exists a, b, c, d :: 0 <= a <= 255 && 0 <= b <= 255 && 0 <= c <= 255 && 0 <= d <= 255
                                 && text == Dotted(a, b, c, d)
  {
    var f := SplitDots(text);
    if CheckIp(text) {
      assert Octet(f[0]) && Octet(f[1]) && Octet(f[2]) && Octet(f[3]);
      OctetIsByte(f[0]); OctetIsByte(f[1]); OctetIsByte(f[2]); OctetIsByte(f[3]);
      SplitDotsJoin(text);
      var a, b, c, d := DigitsValue(f[0]), DigitsValue(f[1]), DigitsValue(f[2]), DigitsValue(f[3]);
      assert f == [NatToString(a), NatToString(b), NatToString(c), NatToString(d)];
      assert text == Dotted(a, b, c, d);
    }
    if exists a, b, c, d :: 0 <= a <= 255 && 0 <= b <= 255 && 0 <= c <= 255 && 0 <= d <= 255
                           && text == Dotted(a, b, c, d) {
      var a, b, c, d :| 0 <= a <= 255 && 0 <= b <= 255 && 0 <= c <= 255 && 0 <= d <= 255
                        && text == Dotted(a, b, c, d);
      SplitDotted(a, b, c, d);
      ByteIsOctet(a); ByteIsOctet(b); ByteIsOctet(c); ByteIsOctet(d);
      assert forall i :: 0 <= i < 4 ==> Octet(f[i]);
    }
  }

  /** The boundary addresses: all zeros and all 255s pass. */
  lemma CheckIpAcceptsBoundaries()
    ensures CheckIp("0.0.0.0")
    ensures CheckIp("255.255.255.255")
  {
    assert NatToString(0) == "0";
    assert NatToString(255) == "255";
    assert Dotted(0, 0, 0, 0) == "0.0.0.0";
    assert Dotted(255, 255, 255, 255) == "255.255.255.255";
    CheckIpIff("0.0.0.0");
    CheckIpIff("255.255.255.255");
  }

  /** An octet of 256 fails, and so does a text of three octets. */
  lemma CheckIpRejectsBoundaries()
    ensures !CheckIp("256.0.0.1")
    ensures !CheckIp("1.2.3")
  {
    assert JoinDots(["256", "0", "0", "1"]) == "256.0.0.1";
    SplitJoinDots(["256", "0", "0", "1"]);
    assert !Octet("256");
    assert JoinDots(["1", "2", "3"]) == "1.2.3";
    SplitJoinDots(["1", "2", "3"]);
  }

  /** For the text of a number within an `int`, `checkPort` holds exactly for 1024..65535. */
  lemma CheckPortOfNumber(p: nat)
    requires p < 0x8000_0000
    ensures PortText(NatToString(p))
    ensures CheckPort(NatToString(p)) <==> 1024 <= p <= 65535
  {
  }

  /** `checkPort` on the boundaries and on empty text. */
  lemma CheckPortBoundaries()
    ensures PortText("") && !CheckPort("")
    ensures PortText("1024") && CheckPort("1024")
    ensures PortText("65535") && CheckPort("65535")
    ensures PortText("1023") && !CheckPort("1023")
    ensures PortText("65536") && !CheckPort("65536")
  {
    assert NatToString(1024) == "1024";
    assert NatToString(65535) == "65535";
    assert NatToString(1023) == "1023";
    assert NatToString(65536) == "65536";
    CheckPortOfNumber(1024);
    CheckPortOfNumber(65535);
    CheckPortOfNumber(1023);
    CheckPortOfNumber(65536);
  }

  /** Leading zeros are read as `Integer.parseInt` reads them: `01024` is port 1024. */
  lemma CheckPortLeadingZero()
    ensures PortText("01024") && CheckPort("01024")
    ensures PortText("065536") && !CheckPort("065536")
  {
    assert "01024"[..4] == "0102" && "0102"[..3] == "010" && "010"[..2] == "01" && "01"[..1] == "0";
    assert "065536"[..5] == "06553" && "06553"[..4] == "0655" && "0655"[..3] == "065";
    assert "065"[..2] == "06" && "06"[..1] == "0";
  }

  // ---------------------------------------------------------------------------------------------
  // The OK button
  // ---------------------------------------------------------------------------------------------

  /** The branch the OK button takes: one of three error toasts, or the commit. */
  datatype Verdict = IpAndPortWrong | IpWrong | PortWrong | Accepted

  /** The `if`/`else if` chain of the OK button on the results of the two checks. */
  function Judge(ipOk: bool, portOk: bool): (v: Verdict)
    ensures v == Accepted <==> ipOk && portOk
    ensures v == IpAndPortWrong <==> !ipOk && !portOk
    ensures v == IpWrong <==> !ipOk && portOk
    ensures v == PortWrong <==> ipOk && !portOk
  {
    if !ipOk && !portOk then IpAndPortWrong
    else if portOk && !ipOk then IpWrong
    else if !portOk && ipOk then PortWrong
    else Accepted
  }

  /** The class's static state: `ENABLED`, which outlives every dialog. */
  class SettingsStatics {
    /** Whether a valid endpoint has been entered; false when the app starts. */
    var enabled: bool

    constructor ()
      ensures !enabled
    {
      enabled := false;
    }
  }

  class SettingsDialog {
    /** The session every dialog talks to: the client's single instance. */
    const client: Session.Client
    const statics: SettingsStatics

    /** A new dialog shares the client's instance and the static state, which it leaves as it is. */
    constructor (app: Session.Statics, statics: SettingsStatics)
      ensures client == app.GetInstance() && this.statics == statics
      ensures statics.enabled == old(statics.enabled)
    {
      client := app.GetInstance();
      this.statics := statics;
    }

    /**
     * The OK button with `ipText` and `portText` in the two text fields: the endpoint goes to the
     * client and `ENABLED` becomes true only when both checks pass; otherwise `ENABLED` becomes
     * false and the client keeps its endpoint.
     */
    method OnPositive(ipText: string, portText: string) returns (v: Verdict)
      requires PortText(portText)
      modifies statics`enabled, client`ip, client`port
      ensures v == Judge(CheckIp(ipText), CheckPort(portText))
      ensures statics.enabled <==> CheckIp(ipText) && CheckPort(portText)
      ensures v == Accepted ==> client.ip == Some(ipText) && client.port == DigitsValue(portText)
      ensures v != Accepted ==> client.ip == old(client.ip) && client.port == old(client.port)
    {
      if !CheckIp(ipText) && !CheckPort(portText) {
        v := IpAndPortWrong;
        statics.enabled := false;
      } else if CheckPort(portText) && !CheckIp(ipText) {
        v := IpWrong;
        statics.enabled := false;
      } else if !CheckPort(portText) && CheckIp(ipText) {
        v := PortWrong;
        statics.enabled := false;
      } else {
        client.SetIp(ipText);
        ParseIntOfDigits(portText);
        client.SetPort(DigitsValue(portText));
        v := Accepted;
        statics.enabled := true;
      }
    }
  }
}
