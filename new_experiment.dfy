/** The rules of the "new experiment" dialog: how the typed buffer size, rate and sensor
    choice are sanitised, how the title is escaped, and which data containers and sensor
    inputs the generated experiment definition declares. The XML text itself, the views
    and export sets, and writing the file are not modelled. */
module NewExperiment {
  import opened Wrappers
  import opened JavaStrings
  import SensorInput

  type SensorKind = SensorInput.SensorKind

  // ---------------------------------------------------------------------------------------
  // Sanitising the inputs

  const DefaultBufferSize: int := 500
  const MaxBufferSize: int := 1_000_000

  /** The buffer-size field: `Integer.valueOf` of the text, with 500 for unparsable text
      and for values outside 1..1000000. */
  function BufferSizeOf(text: string): (n: int)
    ensures 1 <= n <= MaxBufferSize
    ensures n != DefaultBufferSize ==> ParseInt(text) == Some(n)
    ensures ParseInt(text).Some? && 1 <= ParseInt(text).value <= MaxBufferSize ==> n == ParseInt(text).value
  {
    var parsed := ParseInt(text);
    var size := if parsed.Some? then parsed.value else 0;
    if size <= 0 || size > MaxBufferSize then DefaultBufferSize else size
  }

  /** Any size in range, typed as its decimal digits, is taken as it is. */
  lemma BufferSizeOfTypedSize(n: int)
    requires 1 <= n <= MaxBufferSize
    ensures BufferSizeOf(NatToString(n)) == n
  {
    ParseIntOfNatToString(n);
  }

  /** The rate field: `Double.valueOf` of the text (given here as its outcome), 0 when it
      does not parse. */
  function RateOf(parsed: Option<real>): (rate: real)
    ensures parsed.None? ==> rate == 0.0
    ensures parsed.Some? ==> rate == parsed.value
  {
    if parsed.Some? then parsed.value else 0.0
  }

  /** An unparsable rate asks the sensor for its fastest rate (period 0). */
  lemma UnparsableRateIsFastest()
    ensures SensorInput.PeriodOf(RateOf(None)) == 0
  {
  }

  /** The six sensor check boxes. */
  datatype SensorSelection = SensorSelection(acc: bool, gyr: bool, light: bool, lin: bool, mag: bool, pressure: bool)

  predicate AnySelected(sel: SensorSelection)
  {
    sel.acc || sel.gyr || sel.light || sel.lin || sel.mag || sel.pressure
  }

  /** With no box checked, the accelerometer is enabled; otherwise the choice stands. */
  function WithDefaultSensor(sel: SensorSelection): (r: SensorSelection)
    ensures AnySelected(r)
    ensures AnySelected(sel) ==> r == sel
    ensures !AnySelected(sel) ==> r == SensorSelection(true, false, false, false, false, false)
  {
    if AnySelected(sel) then sel else sel.(acc := true)
  }

  /** The order in which the file lists the sensors. */
  const SensorOrder: seq<SensorKind> := [SensorInput.Accelerometer, SensorInput.Gyroscope, SensorInput.Light,
                                         SensorInput.LinearAcceleration, SensorInput.MagneticField, SensorInput.Pressure]

  predicate IsSelected(sel: SensorSelection, k: SensorKind)
  {
    match k
    case Accelerometer => sel.acc
    case Gyroscope => sel.gyr
    case Light => sel.light
    case LinearAcceleration => sel.lin
    case MagneticField => sel.mag
    case Pressure => sel.pressure
  }

  predicate Distinct<T(==)>(xs: seq<T>)
  {
    forall i, j :: 0 <= i < j < |xs| ==> xs[i] != xs[j]
  }

  /** The selected sensors among `order`, keeping its order. */
  function Selected(sel: SensorSelection, order: seq<SensorKind>): (ks: seq<SensorKind>)
    ensures forall k :: k in ks <==> k in order && IsSelected(sel, k)
    ensures Distinct(order) ==> Distinct(ks)
  {
    if |order| == 0 then []
    else
      var rest := Selected(sel, order[1..]);
      assert Distinct(order) ==> order[0] !in order[1..];
      if IsSelected(sel, order[0]) then [order[0]] + rest else rest
  }

  /** The enabled sensors in the order the file lists them. */
  function EnabledSensors(sel: SensorSelection): (ks: seq<SensorKind>)
    ensures Distinct(ks)
    ensures forall k :: k in ks <==> IsSelected(sel, k)
    ensures AnySelected(sel) <==> |ks| > 0
  {
    SensorOrderComplete();
    var ks := Selected(sel, SensorOrder);
    assert AnySelected(sel) ==> |ks| > 0 by {
      if AnySelected(sel) {
        var k := SomeSelected(sel);
        assert k in ks;
      }
    }
    assert |ks| > 0 ==> AnySelected(sel) by {
      if |ks| > 0 {
        assert ks[0] in ks;
        SelectedIsAny(sel, ks[0]);
      }
    }
    ks
  }

  /** A checked box, when there is one. */
  function SomeSelected(sel: SensorSelection): (k: SensorKind)
    requires AnySelected(sel)
    ensures IsSelected(sel, k)
  {
    if sel.acc then SensorInput.Accelerometer
    else if sel.gyr then SensorInput.Gyroscope
    else if sel.light then SensorInput.Light
    else if sel.lin then SensorInput.LinearAcceleration
    else if sel.mag then SensorInput.MagneticField
    else SensorInput.Pressure
  }

  lemma SelectedIsAny(sel: SensorSelection, k: SensorKind)
    requires IsSelected(sel, k)
    ensures AnySelected(sel)
  {
  }

  /** Every sensor kind appears in the file order exactly once. */
  lemma SensorOrderComplete()
    ensures Distinct(SensorOrder)
    ensures forall k :: k in SensorOrder
  {
    forall k: SensorKind
      ensures k in SensorOrder
    {
      var i := match k
        case Accelerometer => 0
        case Gyroscope => 1
        case Light => 2
        case LinearAcceleration => 3
        case MagneticField => 4
        case Pressure => 5;
      assert SensorOrder[i] == k;
    }
  }

  // ---------------------------------------------------------------------------------------
  // Escaping the title

  /** The entity each markup character stands for in the generated file. */
  function EscapeChar(c: char): string
  {
    if c == '&' then "&amp;"
    else if c == '<' then "&lt;"
    else if c == '>' then "&gt;"
    else if c == '"' then "&quot;"
    else if c == '\'' then "&apos;"
    else [c]
  }

  /** Reading an escaped text back: each of the five entities becomes its character. */
  function Unescape(s: string): string
  {
    if |s| == 0 then []
    else if "&amp;" <= s then "&" + Unescape(s[5..])
    else if "&lt;" <= s then "<" + Unescape(s[4..])
    else if "&gt;" <= s then ">" + Unescape(s[4..])
    else if "&quot;" <= s then "\"" + Unescape(s[6..])
    else if "&apos;" <= s then "'" + Unescape(s[6..])
    else [s[0]] + Unescape(s[1..])
  }

  predicate NoMarkup(s: string)
  {
    '<' !in s && '>' !in s && '"' !in s && '\'' !in s
  }

  /** The first four replacements of the chain: `<`, `>`, `"` and `'` by their entities. */
  function EscapeMarkup(title: string): (r: string)
    ensures NoMarkup(r)
  {
    var s1 := ReplaceChar(title, '<', "&lt;");
    var s2 := ReplaceChar(s1, '>', "&gt;");
    var s3 := ReplaceChar(s2, '"', "&quot;");
    var s4 := ReplaceChar(s3, '\'', "&apos;");
    assert '<' !in s2 && '<' !in s3 && '>' !in s3;
    s4
  }

  /** The title escaping as written: `<`, `>`, `"` and `'` are replaced first and `&`
      last, so the `&` of every entity just inserted is escaped again. The result has no
      markup character, but it reads back as the title with its markup characters still
      escaped, not as the title. */
  function EscapeTitleAsWritten(title: string): (r: string)
    ensures NoMarkup(r)
    ensures Unescape(r) == EscapeMarkup(title)
  {
    var m := EscapeMarkup(title);
    UnescapeAmpersandsEscaped(m);
    ReplaceChar(m, '&', "&amp;")
  }

  /** Escaping only `&` is undone by reading back. */
  lemma {:induction false} UnescapeAmpersandsEscaped(t: string)
    ensures Unescape(ReplaceChar(t, '&', "&amp;")) == t
  {
    if |t| > 0 {
      var rest := ReplaceChar(t[1..], '&', "&amp;");
      UnescapeAmpersandsEscaped(t[1..]);
      if t[0] == '&' {
        UnescapeAfterEscapeChar('&', rest);
      } else {
        UnescapePlainChar(t[0], rest);
      }
      assert t == [t[0]] + t[1..];
    }
  }

  /** A character other than `&` starts no entity and reads back as itself. */
  lemma UnescapePlainChar(c: char, u: string)
    requires c != '&'
    ensures Unescape([c] + u) == [c] + Unescape(u)
  {
    var s := [c] + u;
    assert s[0] == c && s[1..] == u;
  }

  /** The corrected title escaping, beside the as-written one: every
      markup character, `&` included, replaced by its entity in a single left-to-right
      pass (what the chain computes when `&` is replaced first), so no inserted entity is
      escaped again and the title reads back unchanged. */
  function EscapeTitle(title: string): (r: string)
    ensures |r| >= |title|
    ensures NoMarkup(r)
  {
    if |title| == 0 then []
    else
      assert NoMarkup(EscapeChar(title[0]));
      EscapeChar(title[0]) + EscapeTitle(title[1..])
  }

  /** The corrected escaped title reads back as the typed title. */
  lemma {:induction false} UnescapeEscapeTitle(s: string)
    ensures Unescape(EscapeTitle(s)) == s
  {
    if |s| > 0 {
      UnescapeAfterEscapeChar(s[0], EscapeTitle(s[1..]));
      UnescapeEscapeTitle(s[1..]);
      assert s == [s[0]] + s[1..];
    }
  }

  lemma UnescapeAfterEscapeChar(c: char, t: string)
    ensures Unescape(EscapeChar(c) + t) == [c] + Unescape(t)
  {
    var e := EscapeChar(c);
    var s := e + t;
    assert s[..|e|] == e && s[|e|..] == t;
    if c == '&' {
      assert "&amp;" <= s;
    } else if c == '<' {
      assert s[1] == 'l';
      assert "&lt;" <= s;
    } else if c == '>' {
      assert s[1] == 'g';
      assert "&gt;" <= s;
    } else if c == '"' {
      assert s[1] == 'q';
      assert "&quot;" <= s;
    } else if c == '\'' {
      assert s[1] == 'a' && s[2] == 'p';
      assert "&apos;" <= s;
    } else {
      assert s[0] == c && s[1..] == t;
    }
  }

  /** As written, a typed `<` does not read back: it becomes `&amp;lt;`, which reads
      back as the four characters `&lt;`. */
  lemma EscapeTitleAsWrittenDoubleEscapes()
    ensures EscapeTitleAsWritten("<") == "&amp;lt;"
    ensures Unescape(EscapeTitleAsWritten("<")) == "&lt;" != "<"
  {
    EscapeTitleAsWrittenOfLt();
    UnescapeDoubleEscapedLt();
  }

  /** Step by step through the chain of replacements for the title `<`. */
  lemma EscapeTitleAsWrittenOfLt()
    ensures EscapeTitleAsWritten("<") == "&amp;lt;"
  {
    var lt := "&lt;";
    var s1 := ReplaceChar("<", '<', lt);
    ReplaceCharSingle('<', '<', lt);
    assert s1 == lt;
    var s2 := ReplaceChar(s1, '>', "&gt;");
    ReplaceCharAbsent(lt, '>', "&gt;");
    var s3 := ReplaceChar(s2, '"', "&quot;");
    ReplaceCharAbsent(lt, '"', "&quot;");
    var s4 := ReplaceChar(s3, '\'', "&apos;");
    ReplaceCharAbsent(lt, '\'', "&apos;");
    assert s4 == lt;
    AmpersandOfLtEscaped();
  }

  lemma AmpersandOfLtEscaped()
    ensures ReplaceChar("&lt;", '&', "&amp;") == "&amp;lt;"
  {
    ReplaceCharAbsent("lt;", '&', "&amp;");
    assert "&lt;" == ['&'] + "lt;";
    ReplaceCharConcat(['&'], "lt;", '&', "&amp;");
    ReplaceCharSingle('&', '&', "&amp;");
  }

  lemma UnescapeDoubleEscapedLt()
    ensures Unescape("&amp;lt;") == "&lt;"
  {
  }

  // ---------------------------------------------------------------------------------------
  // The definition's containers and inputs

  datatype Container = Container(name: string, size: int)

  /** An `<output component="c">buffer</output>` element of a sensor input. */
  datatype Output = Output(component: char, buffer: string)

  /** A `<sensor type=... rate=...>` element of the input block. */
  datatype SensorElement = SensorElement(sensorType: string, rate: real, outputs: seq<Output>)

  /** The parts of the generated file that carry logic. */
  datatype Definition = Definition(title: string, category: string, description: string,
                                   containers: seq<Container>, inputs: seq<SensorElement>)

  /** Whether a sensor delivers three axes (and gets four buffers) or one value (two). */
  predicate ThreeAxis(k: SensorKind)
  {
    !(k == SensorInput.Light || k == SensorInput.Pressure)
  }

  /** The buffer names of one sensor, time first. */
  function BufferNames(k: SensorKind): (names: seq<string>)
    ensures |names| == if ThreeAxis(k) then 4 else 2
  {
    match k
    case Accelerometer => ["acc_time", "accX", "accY", "accZ"]
    case Gyroscope => ["gyr_time", "gyrX", "gyrY", "gyrZ"]
    case Light => ["light_time", "light"]
    case LinearAcceleration => ["lin_time", "linX", "linY", "linZ"]
    case MagneticField => ["mag_time", "magX", "magY", "magZ"]
    case Pressure => ["pressure_time", "pressure"]
  }

  /** The output elements of one sensor: x (y, z) and t, each into the matching buffer. */
  function OutputsOf(k: SensorKind): (outs: seq<Output>)
    ensures |outs| == |BufferNames(k)|
    // the value components in axis order, each into the next buffer of the group
    ensures forall i :: 0 <= i < |outs| - 1 ==> outs[i] == Output("xyz"[i], BufferNames(k)[i + 1])
    // the time last, into the group's first buffer
    ensures outs[|outs| - 1] == Output('t', BufferNames(k)[0])
  {
    var n := BufferNames(k);
    if ThreeAxis(k) then [Output('x', n[1]), Output('y', n[2]), Output('z', n[3]), Output('t', n[0])]
    else [Output('x', n[1]), Output('t', n[0])]
  }

  /** The buffer names of a list of sensors, group after group. */
  function ContainerNames(ks: seq<SensorKind>): (names: seq<string>)
    ensures forall n :: n in names <==> exists k :: k in ks && n in BufferNames(k)
  {
    if |ks| == 0 then [] else BufferNames(ks[0]) + ContainerNames(ks[1..])
  }

  /** One `<container size=...>` element per name, all of the same size. */
  function ContainersOf(names: seq<string>, size: int): (cs: seq<Container>)
    ensures |cs| == |names|
    ensures forall i :: 0 <= i < |cs| ==> cs[i] == Container(names[i], size)
  {
    if |names| == 0 then [] else [Container(names[0], size)] + ContainersOf(names[1..], size)
  }

  function InputsOf(ks: seq<SensorKind>, rate: real): (es: seq<SensorElement>)
    ensures |es| == |ks|
    ensures forall i :: 0 <= i < |ks| ==> es[i] == SensorElement(SensorInput.NameOf(ks[i]), rate, OutputsOf(ks[i]))
  {
    if |ks| == 0 then [] else [SensorElement(SensorInput.NameOf(ks[0]), rate, OutputsOf(ks[0]))] + InputsOf(ks[1..], rate)
  }

  /** The number of buffers for a list of sensors: four per three-axis sensor, two each
      for light and pressure. */
  function BufferCount(ks: seq<SensorKind>): nat
  {
    if |ks| == 0 then 0 else (if ThreeAxis(ks[0]) then 4 else 2) + BufferCount(ks[1..])
  }

  /** The whole dialog: sanitised inputs, escaped title, the fixed category and
      description, and one container group and one sensor input per enabled sensor. */
  function NewExperimentDefinition(title: string, bufferText: string, rate: Option<real>,
                                   sel: SensorSelection): (d: Definition)
    ensures d.category == "Raw Sensors" && d.description == "Get raw data from selected sensors."
    ensures NoMarkup(d.title) && Unescape(d.title) == EscapeMarkup(title)
    ensures |d.inputs| > 0
  {
    var ks := EnabledSensors(WithDefaultSensor(sel));
    Definition(EscapeTitleAsWritten(title), "Raw Sensors", "Get raw data from selected sensors.",
               ContainersOf(ContainerNames(ks), BufferSizeOf(bufferText)), InputsOf(ks, RateOf(rate)))
  }

  lemma {:induction false} ContainerNamesCount(ks: seq<SensorKind>)
    ensures |ContainerNames(ks)| == BufferCount(ks)
  {
    if |ks| > 0 {
      ContainerNamesCount(ks[1..]);
    }
  }

  lemma BufferNamesDisjoint(k1: SensorKind, k2: SensorKind, n: string)
    requires k1 != k2 && n in BufferNames(k1)
    ensures n !in BufferNames(k2)
  {
  }

  /** Different sensors never share a buffer name, so the container names are unique. */
  lemma {:induction false} ContainerNamesDistinct(ks: seq<SensorKind>)
    requires Distinct(ks)
    ensures Distinct(ContainerNames(ks))
  {
    if |ks| > 0 {
      ContainerNamesDistinct(ks[1..]);
      var head, tail := BufferNames(ks[0]), ContainerNames(ks[1..]);
      assert Distinct(head);
      forall n | n in head
        ensures n !in tail
      {
        if n in tail {
          var k :| k in ks[1..] && n in BufferNames(k);
          BufferNamesDisjoint(ks[0], k, n);
        }
      }
      DistinctConcat(head, tail);
    }
  }

  lemma DistinctConcat<T>(a: seq<T>, b: seq<T>)
    requires Distinct(a) && Distinct(b) && forall x :: x in a ==> x !in b
    ensures Distinct(a + b)
  {
    forall i, j | 0 <= i < j < |a + b|
      ensures (a + b)[i] != (a + b)[j]
    {
      if i < |a| && j >= |a| {
        assert (a + b)[i] in a && (a + b)[j] == b[j - |a|];
      } else if i >= |a| {
        assert (a + b)[i] == b[i - |a|] && (a + b)[j] == b[j - |a|];
      }
    }
  }

  /** Every name in the list gets its container. */
  lemma {:induction false} ContainersOfCovers(names: seq<string>, size: int, n: string)
    requires n in names
    ensures Container(n, size) in ContainersOf(names, size)
  {
    var i :| 0 <= i < |names| && names[i] == n;
    assert ContainersOf(names, size)[i] == Container(n, size);
  }

  /** Each generated sensor input names a type the sensor input accepts, and the
      type names the sensor it was generated for. */
  lemma InputsOfAccepted(ks: seq<SensorKind>, rate: real, i: int)
    requires 0 <= i < |ks|
    ensures SensorInput.KindOfName(InputsOf(ks, rate)[i].sensorType) == Some(ks[i])
    ensures InputsOf(ks, rate)[i].rate == rate
  {
    SensorInput.NameKindRoundTrip(ks[i], ks[i]);
  }

  /** Each output of a generated sensor input writes to one of the generated names. */
  lemma InputsOfOutputsDeclared(ks: seq<SensorKind>, rate: real, i: int, o: Output)
    requires 0 <= i < |ks| && o in InputsOf(ks, rate)[i].outputs
    ensures o.buffer in ContainerNames(ks)
  {
    assert o.buffer in BufferNames(ks[i]);
    assert ks[i] in ks;
  }

  /** The generated containers: four or two per enabled sensor, all of the sanitised
      size, with unique names. */
  lemma NewExperimentContainers(title: string, bufferText: string, rate: Option<real>, sel: SensorSelection)
    ensures var d := NewExperimentDefinition(title, bufferText, rate, sel);
            && |d.containers| == BufferCount(EnabledSensors(WithDefaultSensor(sel)))
            && (forall c :: c in d.containers ==> c.size == BufferSizeOf(bufferText))
            && (forall i, j :: 0 <= i < j < |d.containers| ==> d.containers[i].name != d.containers[j].name)
  {
    var ks := EnabledSensors(WithDefaultSensor(sel));
    var names := ContainerNames(ks);
    var cs := ContainersOf(names, BufferSizeOf(bufferText));
    ContainerNamesCount(ks);
    ContainerNamesDistinct(ks);
    forall i, j | 0 <= i < j < |cs|
      ensures cs[i].name != cs[j].name
    {
      assert cs[i].name == names[i] && cs[j].name == names[j];
    }
  }

  /** The generated inputs: one per enabled sensor and in the same order, each of a type
      the sensor input accepts, at the sanitised rate, and writing only to declared
      containers. */
  lemma NewExperimentInputs(title: string, bufferText: string, rate: Option<real>, sel: SensorSelection)
    ensures var d := NewExperimentDefinition(title, bufferText, rate, sel);
            var ks := EnabledSensors(WithDefaultSensor(sel));
            && |d.inputs| == |ks|
            && (forall i :: 0 <= i < |ks| ==> SensorInput.KindOfName(d.inputs[i].sensorType) == Some(ks[i]))
            && (forall e :: e in d.inputs ==> e.rate == RateOf(rate))
            && (forall e, o :: e in d.inputs && o in e.outputs ==>
                  Container(o.buffer, BufferSizeOf(bufferText)) in d.containers)
  {
    var ks := EnabledSensors(WithDefaultSensor(sel));
    var size := BufferSizeOf(bufferText);
    var es := InputsOf(ks, RateOf(rate));
    forall i | 0 <= i < |ks|
      ensures SensorInput.KindOfName(es[i].sensorType) == Some(ks[i])
    {
      InputsOfAccepted(ks, RateOf(rate), i);
    }
    forall e, o | e in es && o in e.outputs
      ensures Container(o.buffer, size) in ContainersOf(ContainerNames(ks), size)
    {
      var i :| 0 <= i < |es| && es[i] == e;
      InputsOfOutputsDeclared(ks, RateOf(rate), i, o);
      ContainersOfCovers(ContainerNames(ks), size, o.buffer);
    }
  }
}
