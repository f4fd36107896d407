/** `decodificar_linea_data`: one `DATA,<t_ms>,<servo>,<v_div>,<v_rf>,<v_photo>`
    line into a raw sample. Float literals are read by an abstract partial
    function `parseFloat` standing for Python's `float()`. */
module Decoder {
  import opened Base
  import opened Text
  import opened Samples

  /** The three `ValueError`s the decoder raises. */
  datatype DecodeError = NotDataLine | WrongFieldCount(count: nat) | BadConversion

  /** The protocol tag every data frame starts with. */
  const Tag: string := "DATA,"

  /** The comma-separated fields of the trimmed line. */
  function Fields(line: string): seq<string> {
    Split(Strip(line), ',')
  }

  /** `decodificar_linea_data`; what it accepts and rejects is `DecodeSpec`. */
  function Decode(line: string, parseFloat: string -> Option<real>): (r: Result<RawSample, DecodeError>)
    ensures r == Err(NotDataLine) <==> !StartsWith(Strip(line), Tag)
    ensures r.Ok? ==>
      && |Fields(line)| == 6 && ParseInt(Fields(line)[1]) == Some(r.value.tMs)
      && ParseInt(Fields(line)[2]) == Some(r.value.servoDeg)
  {
    var l := Strip(line);
    if !StartsWith(l, Tag) then Err(NotDataLine)
    else
      var partes := Split(l, ',');
      if |partes| != 6 then Err(WrongFieldCount(|partes|))
      else
        var tMs := ParseInt(partes[1]);
        var servoDeg := ParseInt(partes[2]);
        var vDiv := parseFloat(partes[3]);
        var vRf := parseFloat(partes[4]);
        var vPhoto := parseFloat(partes[5]);
        if tMs.Some? && servoDeg.Some? && vDiv.Some? && vRf.Some? && vPhoto.Some? then
          Ok(RawSample(tMs.value, servoDeg.value, vDiv.value, vRf.value, vPhoto.value))
        else Err(BadConversion)
  }

  /** A float syntax: Python's `float()` paired with the formatter that
      wrote the values. No formatter reads back every real (a decimal
      literal never denotes 1/3), so read-back is asked of the values a
      sample actually carries. */
  datatype FloatFormat = FloatFormat(parse: string -> Option<real>, show: real -> string)

  /** `float(show(x)) == x`. */
  ghost predicate ReadsBack(f: FloatFormat, x: real) {
    f.parse(f.show(x)) == Some(x)
  }

  /** `x` reads back, and its text holds no comma or whitespace, so it
      survives `split(",")` and `strip()` inside a frame. */
  ghost predicate ShowsPlain(f: FloatFormat, x: real) {
    ReadsBack(f, x) && PlainField(f.show(x))
  }

  /** The three voltages of a sample read back. */
  ghost predicate SampleReadsBack(f: FloatFormat, s: RawSample) {
    ReadsBack(f, s.vDiv) && ReadsBack(f, s.vRf) && ReadsBack(f, s.vPhoto)
  }

  /** The three voltages of a sample read back and are plain frame fields. */
  ghost predicate SampleShowsPlain(f: FloatFormat, s: RawSample) {
    ShowsPlain(f, s.vDiv) && ShowsPlain(f, s.vRf) && ShowsPlain(f, s.vPhoto)
  }

  /** The fields of the frame the firmware sends for a sample. */
  function FrameFields(s: RawSample, show: real -> string): seq<string> {
    ["DATA", ShowInt(s.tMs), ShowInt(s.servoDeg), show(s.vDiv), show(s.vRf), show(s.vPhoto)]
  }

  /** The `DATA` line the firmware sends for a sample. */
  function Encode(s: RawSample, show: real -> string): string {
    Join(FrameFields(s, show), ',')
  }

  // ---------------------------------------------------------------------
  // Lemmas
  // ---------------------------------------------------------------------

  /** The three rejections and the acceptance, each stated on the trimmed
      line and its comma-separated fields. */
  lemma DecodeSpec(line: string, parseFloat: string -> Option<real>)
    ensures var r := Decode(line, parseFloat);
      && (!StartsWith(Strip(line), Tag) <==> r == Err(NotDataLine))
      && (StartsWith(Strip(line), Tag) && |Fields(line)| != 6 <==> r == Err(WrongFieldCount(|Fields(line)|)))
      && (r.Ok? ==>
            var f := Fields(line);
            && StartsWith(Strip(line), Tag) && |f| == 6
            && ParseInt(f[1]) == Some(r.value.tMs)
            && ParseInt(f[2]) == Some(r.value.servoDeg)
            && parseFloat(f[3]) == Some(r.value.vDiv)
            && parseFloat(f[4]) == Some(r.value.vRf)
            && parseFloat(f[5]) == Some(r.value.vPhoto))
      && (r == Err(BadConversion) <==>
            var f := Fields(line);
            && StartsWith(Strip(line), Tag) && |f| == 6
            && (ParseInt(f[1]).None? || ParseInt(f[2]).None?
                || parseFloat(f[3]).None? || parseFloat(f[4]).None? || parseFloat(f[5]).None?))
  {
  }

  /** A tagged line splitting into six convertible fields decodes to exactly their values. */
  lemma DecodeOfFields(line: string, parts: seq<string>, parseFloat: string -> Option<real>, s: RawSample)
    requires StartsWith(Strip(line), Tag)
    requires Fields(line) == parts && |parts| == 6
    requires ParseInt(parts[1]) == Some(s.tMs)
    requires ParseInt(parts[2]) == Some(s.servoDeg)
    requires parseFloat(parts[3]) == Some(s.vDiv)
    requires parseFloat(parts[4]) == Some(s.vRf)
    requires parseFloat(parts[5]) == Some(s.vPhoto)
    ensures Decode(line, parseFloat) == Ok(s)
  {
  }

  /** Trimming comes first, so surrounding whitespace never changes the outcome. */
  lemma DecodeIgnoresPadding(w1: string, line: string, w2: string, parseFloat: string -> Option<real>)
    requires AllSpace(w1) && AllSpace(w2)
    ensures Decode(w1 + line + w2, parseFloat) == Decode(line, parseFloat)
  {
    StripIgnoresPadding(w1, line, w2);
  }

  /** A comma-joined line whose first field is `DATA` and whose last field
      ends in a non-blank carries the tag and splits back into its fields. */
  lemma TaggedJoinSplits(parts: seq<string>)
    requires |parts| >= 2 && parts[0] == "DATA"
    requires forall i :: 0 <= i < |parts| ==> Lacks(parts[i], ',')
    requires var last := parts[|parts| - 1]; |last| > 0 && !IsSpace(last[|last| - 1])
    ensures StartsWith(Strip(Join(parts, ',')), Tag)
    ensures Fields(Join(parts, ',')) == parts
  {
    var e := Join(parts, ',');
    JoinFirst(parts, ',');
    assert e[..5] == Tag;
    JoinLast(parts, ',');
    StripUnpadded(e);
    SplitJoin(parts, ',');
  }

  /** The frame built from a sample carries the tag and splits back into its fields. */
  lemma EncodeFields(s: RawSample, f: FloatFormat)
    requires SampleShowsPlain(f, s)
    ensures StartsWith(Strip(Encode(s, f.show)), Tag)
    ensures Fields(Encode(s, f.show)) == FrameFields(s, f.show)
  {
    var parts := FrameFields(s, f.show);
    assert forall i :: 0 <= i < |parts| ==> Lacks(parts[i], ',') by {
      ShowIntPlain(s.tMs);
      ShowIntPlain(s.servoDeg);
      assert PlainField(f.show(s.vDiv)) && PlainField(f.show(s.vRf)) && PlainField(f.show(s.vPhoto));
      forall i | 0 <= i < |parts|
        ensures Lacks(parts[i], ',')
      {
        if i > 0 {
          assert PlainField(parts[i]);
        }
      }
    }
    assert PlainField(parts[5]);
    TaggedJoinSplits(parts);
  }

  /** Decoding the frame built from a sample recovers every field, in order. */
  lemma DecodeEncode(s: RawSample, f: FloatFormat)
    requires SampleShowsPlain(f, s)
    ensures Decode(Encode(s, f.show), f.parse) == Ok(s)
  {
    EncodeFields(s, f);
    ShowIntRoundTrip(s.tMs);
    ShowIntRoundTrip(s.servoDeg);
    var parts := FrameFields(s, f.show);
    assert f.parse(parts[3]) == Some(s.vDiv) && f.parse(parts[4]) == Some(s.vRf) && f.parse(parts[5]) == Some(s.vPhoto);
    DecodeOfFields(Encode(s, f.show), parts, f.parse, s);
  }

  /** A format that writes `1.5` as "1.5" meets the requirement of
      `DecodeEncode` for a sample whose voltages are all 1.5, and that
      sample's frame decodes back to it. */
  lemma DecodeEncodeInstance()
    ensures var f := FloatFormat(t => if t == "1.5" then Some(1.5) else None, x => "1.5");
      var s := RawSample(250, 10, 1.5, 1.5, 1.5);
      SampleShowsPlain(f, s) && Decode(Encode(s, f.show), f.parse) == Ok(s)
  {
    var f := FloatFormat(t => if t == "1.5" then Some(1.5) else None, x => "1.5");
    var s := RawSample(250, 10, 1.5, 1.5, 1.5);
    assert PlainField("1.5");
    DecodeEncode(s, f);
  }

  /** A status line from the firmware is not a data frame. */
  lemma RejectsStatusLine(parseFloat: string -> Option<real>)
    ensures Decode("READY", parseFloat) == Err(NotDataLine)
  {
    assert !StartsWith(Strip("READY"), Tag) by {
      StripUnpadded("READY");
    }
  }

  /** A frame with four fields is rejected on its field count. */
  lemma RejectsShortFrame(parseFloat: string -> Option<real>)
    ensures Decode("DATA,1,2,3", parseFloat) == Err(WrongFieldCount(4))
  {
    ShortFrameFields();
  }

  /** Helper of `RejectsShortFrame`: `DATA,1,2,3` carries the tag and splits into four fields. */
  lemma ShortFrameFields()
    ensures StartsWith(Strip("DATA,1,2,3"), Tag)
    ensures Fields("DATA,1,2,3") == ["DATA", "1", "2", "3"]
  {
    var parts := ["DATA", "1", "2", "3"];
    assert Join(parts, ',') == "DATA,1,2,3";
    TaggedJoinSplits(parts);
  }

  /** Helper of `DecodesExample`: the example's integer fields parse. */
  lemma ExampleIntegers(t: string, servo: string)
    requires t == "12345" && servo == "10"
    ensures ParseInt(t) == Some(12345)
    ensures ParseInt(servo) == Some(10)
  {
    assert DigitsValue("1") == 1 by {
      assert "1"[..0] == "";
    }
    assert DigitsValue("12") == 12 by {
      assert "12"[..1] == "1";
    }
    assert DigitsValue("123") == 123 by {
      assert "123"[..2] == "12";
    }
    assert DigitsValue("1234") == 1234 by {
      assert "1234"[..3] == "123";
    }
    assert DigitsValue("12345") == 12345 by {
      assert "12345"[..4] == "1234";
    }
    assert DigitsValue("10") == 10 by {
      assert "10"[..1] == "1";
    }
    StripDigits("12345");
    StripDigits("10");
    assert ParseSigned("12345") == Some(12345);
    assert ParseSigned("10") == Some(10);
  }

  /** Helper of `DecodesExample`: the example line carries the tag and splits into six fields. */
  lemma ExampleFields(line: string)
    requires line == "DATA,12345,10,0.9150,0.6231,0.1042"
    ensures StartsWith(Strip(line), Tag)
    ensures Fields(line) == ["DATA", "12345", "10", "0.9150", "0.6231", "0.1042"]
  {
    var parts := ["DATA", "12345", "10", "0.9150", "0.6231", "0.1042"];
    ExampleJoin(line, parts);
    ExamplePartsPlain(parts);
    TaggedJoinSplits(parts);
  }

  /** Helper of `DecodesExample`: the six fields join back into the example line. */
  lemma ExampleJoin(line: string, parts: seq<string>)
    requires line == "DATA,12345,10,0.9150,0.6231,0.1042"
    requires parts == ["DATA", "12345", "10", "0.9150", "0.6231", "0.1042"]
    ensures Join(parts, ',') == line
  {
    var p4 := ["0.6231"] + ["0.1042"];
    var p3 := ["0.9150"] + p4;
    var p2 := ["10"] + p3;
    var p1 := ["12345"] + p2;
    assert parts == ["DATA"] + p1;
    JoinCons("0.6231", ["0.1042"], ',');
    JoinCons("0.9150", p4, ',');
    JoinCons("10", p3, ',');
    JoinCons("12345", p2, ',');
    JoinCons("DATA", p1, ',');
    ExampleLine(line);
  }

  /** Helper of `DecodesExample`: the example line, written as nested joins. */
  lemma ExampleLine(line: string)
    requires line == "DATA,12345,10,0.9150,0.6231,0.1042"
    ensures line == "DATA" + [','] + ("12345" + [','] + ("10" + [','] + ("0.9150" + [','] + ("0.6231" + [','] + "0.1042"))))
  {
  }

  /** Helper of `DecodesExample`: no example field holds a comma, and the last ends in a non-blank. */
  lemma ExamplePartsPlain(parts: seq<string>)
    requires parts == ["DATA", "12345", "10", "0.9150", "0.6231", "0.1042"]
    ensures forall i :: 0 <= i < |parts| ==> Lacks(parts[i], ',')
    ensures var last := parts[|parts| - 1]; |last| > 0 && !IsSpace(last[|last| - 1])
  {
    forall i | 0 <= i < |parts|
      ensures Lacks(parts[i], ',')
    {
      var p := parts[i];
      assert forall k :: 0 <= k < |p| ==> p[k] != ',';
    }
  }

  /** The documented example frame. */
  lemma DecodesExample(line: string, parseFloat: string -> Option<real>)
    requires line == "DATA,12345,10,0.9150,0.6231,0.1042"
    requires parseFloat("0.9150") == Some(0.915)
    requires parseFloat("0.6231") == Some(0.6231)
    requires parseFloat("0.1042") == Some(0.1042)
    ensures Decode(line, parseFloat) == Ok(RawSample(12345, 10, 0.915, 0.6231, 0.1042))
  {
    var parts := ["DATA", "12345", "10", "0.9150", "0.6231", "0.1042"];
    ExampleFields(line);
    ExampleIntegers(parts[1], parts[2]);
    DecodeOfFields(line, parts, parseFloat, RawSample(12345, 10, 0.915, 0.6231, 0.1042));
  }
}
