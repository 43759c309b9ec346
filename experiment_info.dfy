/** `loadExperimentInfo`: the few metadata elements read from an experiment file for the
    start screen. The pull parser is modelled by the sequence of events it delivers, each
    tag with the depth the parser reports; the end of the sequence is the end of the
    document. Only the title, icon, description and category directly below the root
    `phyphox` element, or directly below the one translation whose locale is the device
    language, are taken. */
module ExperimentInfo {
  import opened Wrappers
  import opened JavaStrings
  import opened ExperimentCatalogue

  // ---------------------------------------------------------------------------------------
  // The pull parser

  /** One event of the parser: a start tag with its depth and attributes, an end tag with
      its depth, character data, or a point where the parser throws
      `XmlPullParserException` on `next()`. */
  datatype XmlEvent =
    | StartTag(name: string, depth: int, attributes: map<string, string>)
    | EndTag(name: string, depth: int)
    | Text(text: string)
    | Malformed

  /** `getAttributeValue(null, a)` on the current event: only a start tag carries
      attributes; on any other event the parser reports none. */
  function AttributeValue(ev: XmlEvent, a: string): (r: Option<string>)
    ensures r.Some? <==> ev.StartTag? && a in ev.attributes
    ensures r.Some? ==> r.value == ev.attributes[a]
  {
    if ev.StartTag? && a in ev.attributes then Some(ev.attributes[a]) else None
  }

  /** The two ways the scan can end early: an `XmlPullParserException`, which is caught and
      reported, and the `NullPointerException` of a translation without a `locale`
      attribute, which nothing catches. */
  datatype ScanError = XmlError | MissingLocale

  /** `nextText()` on the start tag at `p`: the text of a text-only element, "" for an
      empty one, and the index of the element's end tag where the parser is left;
      anything else throws `XmlPullParserException`. */
  function NextText(events: seq<XmlEvent>, p: nat): (r: Result<(string, nat), ScanError>)
    requires p < |events|
    ensures r.Ok? ==> p < r.value.1 < |events| && events[r.value.1].EndTag?
    ensures r.Ok? && r.value.1 == p + 2 ==> events[p + 1] == Text(r.value.0)
    ensures r.Ok? && r.value.1 == p + 1 ==> r.value.0 == ""
    ensures r.Err? ==> r.error == XmlError
  {
    if p + 1 < |events| && events[p + 1].EndTag? then Ok(("", p + 1))
    else if p + 2 < |events| && events[p + 1].Text? && events[p + 2].EndTag? then Ok((events[p + 1].text, p + 2))
    else Err(XmlError)
  }

  // ---------------------------------------------------------------------------------------
  // One step of the scan

  /** The loop's local variables: the three tracked depths (-1 when not inside) and the
      metadata found so far. `icon` is kept only as the icon it produces. */
  datatype ScanState = ScanState(phyphoxDepth: int, translationBlockDepth: int, translationDepth: int,
                                 title: string, category: string, image: Option<Icon>, description: string)

  const Initial: ScanState := ScanState(-1, -1, -1, "", "", None, "")

  /** The four elements the scan reads. */
  predicate IsMetadata(name: string)
  {
    name == "title" || name == "icon" || name == "description" || name == "category"
  }

  /** Directly below the root element or directly below the accepted translation. */
  predicate AtMetadataDepth(st: ScanState, depth: int)
  {
    depth == st.phyphoxDepth + 1 || depth == st.translationDepth + 1
  }

  /** An icon element: an image when its `type` attribute is "base64", otherwise a text
      icon of at most the first three characters. */
  function IconOf(text: string, typeAttribute: Option<string>): (i: Icon)
    ensures i.ImageIcon? <==> typeAttribute == Some("base64")
    ensures i.ImageIcon? ==> i.base64 == text
    ensures i.TextIcon? ==> |i.text| == (if |text| > 3 then 3 else |text|) && i.text == text[..|i.text|]
  {
    if typeAttribute == Some("base64") then ImageIcon(text)
    else TextIcon(if |text| > 3 then text[..3] else text)
  }

  /** An accepted metadata element: its text is trimmed and overwrites what an earlier
      element of the same name stored; a description keeps its first line only. */
  function Accept(st: ScanState, name: string, raw: string, typeAttribute: Option<string>): (r: ScanState)
    requires IsMetadata(name)
    // the depths are untouched, and only the element's own field changes
    ensures r.phyphoxDepth == st.phyphoxDepth && r.translationBlockDepth == st.translationBlockDepth
            && r.translationDepth == st.translationDepth
    ensures r.title == if name == "title" then Trim(raw) else st.title
    ensures r.category == if name == "category" then Trim(raw) else st.category
    ensures r.description == if name == "description" then FirstLine(Trim(raw)) else st.description
    ensures r.image == if name == "icon" then Some(IconOf(Trim(raw), typeAttribute)) else st.image
    // whatever the text, what is stored stays well shaped
    ensures WellShaped(st) ==> WellShaped(r)
  {
    var text := Trim(raw);
    assert |text| > 0 ==> !IsTrimmed(text[0]) && !IsTrimmed(text[|text| - 1]);
    if name == "title" then st.(title := text)
    else if name == "icon" then st.(image := Some(IconOf(text, typeAttribute)))
    else if name == "description" then st.(description := FirstLine(text))
    else st.(category := text)
  }

  /** An end tag: a tracked depth returns to -1 only when the end tag is at that very
      depth. */
  function EndTagStep(st: ScanState, name: string, depth: int): (r: ScanState)
    ensures r.title == st.title && r.category == st.category && r.image == st.image
            && r.description == st.description
    ensures r.phyphoxDepth == (if name == "phyphox" && depth == st.phyphoxDepth then -1 else st.phyphoxDepth)
    ensures r.translationBlockDepth ==
            (if name == "translations" && depth == st.translationBlockDepth then -1 else st.translationBlockDepth)
    ensures r.translationDepth ==
            (if name == "translation" && depth == st.translationDepth then -1 else st.translationDepth)
  {
    if name == "phyphox" then
      (if depth == st.phyphoxDepth then st.(phyphoxDepth := -1) else st)
    else if name == "translations" then
      (if depth == st.translationBlockDepth then st.(translationBlockDepth := -1) else st)
    else if name == "translation" then
      (if depth == st.translationDepth then st.(translationDepth := -1) else st)
    else st
  }

  predicate SameMetadata(a: ScanState, b: ScanState)
  {
    a.title == b.title && a.category == b.category && a.image == b.image && a.description == b.description
  }

  /** `st'` is `st` with the metadata element starting at `p` taken in. */
  predicate Accepted(events: seq<XmlEvent>, p: nat, st: ScanState, st': ScanState)
    requires p < |events|
  {
    && events[p].StartTag? && IsMetadata(events[p].name) && AtMetadataDepth(st, events[p].depth)
    && NextText(events, p).Ok?
    && st' == Accept(st, events[p].name, NextText(events, p).value.0, IconTypeAsWritten(events, p))
  }

  /** One pass of the loop body on the event at `p`: the new state and the index of the
      next event to read (after the end tag when `nextText` was called). What one pass may
      change is stated by `StepChanges` and `StepKeepsShape`. */
  function Step(events: seq<XmlEvent>, p: nat, st: ScanState, language: string): (r: Result<(ScanState, nat), ScanError>)
    requires p < |events|
    ensures r.Ok? ==> p < r.value.1 <= |events|
  {
    match events[p]
    case Malformed => Err(XmlError)
    case Text(_) => Ok((st, p + 1))
    case EndTag(name, depth) => Ok((EndTagStep(st, name, depth), p + 1))
    case StartTag(name, depth, _) =>
      if name == "phyphox" then
        Ok((if st.phyphoxDepth < 0 then st.(phyphoxDepth := depth) else st, p + 1))
      else if name == "translations" then
        Ok((if depth == st.phyphoxDepth + 1 && st.translationBlockDepth < 0
            then st.(translationBlockDepth := depth) else st, p + 1))
      else if name == "translation" then
        if depth != st.translationBlockDepth + 1 || st.translationDepth >= 0 then Ok((st, p + 1))
        else
          var locale := AttributeValue(events[p], "locale");
          if locale.None? then Err(MissingLocale)
          else Ok((if locale.value == language then st.(translationDepth := depth) else st, p + 1))
      else if IsMetadata(name) && AtMetadataDepth(st, depth) then TakeMetadata(events, p, st)
      else Ok((st, p + 1))
  }

  /** A metadata element at an accepted depth: `nextText()`, then the `type` attribute read
      on the event the parser is left on, then `Accept`; the scan continues after the end
      tag. */
  function TakeMetadata(events: seq<XmlEvent>, p: nat, st: ScanState): Result<(ScanState, nat), ScanError>
    requires p < |events| && events[p].StartTag? && IsMetadata(events[p].name)
  {
    var t := NextText(events, p);
    if t.Err? then Err(t.error)
    else Ok((Accept(st, events[p].name, t.value.0, AttributeValue(events[t.value.1], "type")), t.value.1 + 1))
  }
  /** What one pass of the loop may change. */
  lemma StepChanges(events: seq<XmlEvent>, p: nat, st: ScanState, language: string)
    requires p < |events|
    ensures var r := Step(events, p, st, language);
            // only an accepted metadata element changes the metadata
            && (r.Ok? ==> SameMetadata(st, r.value.0) || Accepted(events, p, st, r.value.0))
            // metadata outside the two accepted depths is skipped
            && (events[p].StartTag? && IsMetadata(events[p].name) && !AtMetadataDepth(st, events[p].depth)
                ==> r == Ok((st, p + 1)))
            // a translation is taken only directly below the block, with the device's locale,
            // and when none is open yet
            && (r.Ok? && r.value.0.translationDepth != st.translationDepth ==>
                  || (events[p].StartTag? && events[p].name == "translation"
                      && events[p].depth == st.translationBlockDepth + 1 && st.translationDepth < 0
                      && AttributeValue(events[p], "locale") == Some(language)
                      && r.value.0.translationDepth == events[p].depth)
                  || (events[p] == EndTag("translation", st.translationDepth) && r.value.0.translationDepth == -1))
            // the translations block only directly below the root element
            && (r.Ok? && r.value.0.translationBlockDepth != st.translationBlockDepth ==>
                  || (events[p].StartTag? && events[p].name == "translations"
                      && events[p].depth == st.phyphoxDepth + 1 && st.translationBlockDepth < 0)
                  || events[p] == EndTag("translations", st.translationBlockDepth))
            // the two errors
            && (r == Err(MissingLocale) ==>
                  events[p].StartTag? && events[p].name == "translation" && "locale" !in events[p].attributes)
            && (r == Err(XmlError) ==> events[p].Malformed? || (events[p].StartTag? && IsMetadata(events[p].name)))
  {
  }

  /** One pass keeps the stored metadata well shaped, and as written it never stores an
      image: the `type` it passes to `Accept` is read on an end tag. */
  lemma StepKeepsShape(events: seq<XmlEvent>, p: nat, st: ScanState, language: string)
    requires p < |events|
    ensures var r := Step(events, p, st, language);
            && (r.Ok? && WellShaped(st) ==> WellShaped(r.value.0))
            && (r.Ok? && TextIconsOnly(st) ==> TextIconsOnly(r.value.0))
  {
  }


  /** The whole loop from event `p` on. Whatever the file, a scan that completes stores
      only well-shaped metadata, and never an image icon: the icon's `type` is read where
      the parser no longer sees it (see the findings). */
  function Scan(events: seq<XmlEvent>, p: nat, st: ScanState, language: string): (r: Result<ScanState, ScanError>)
    requires p <= |events|
    ensures r.Ok? && WellShaped(st) ==> WellShaped(r.value)
    ensures r.Ok? && TextIconsOnly(st) ==> TextIconsOnly(r.value)
    decreases |events| - p
  {
    if p == |events| then Ok(st)
    else
      match Step(events, p, st, language)
      case Err(e) => Err(e)
      case Ok((st', q)) => StepKeepsShape(events, p, st, language); Scan(events, q, st', language)
  }

  /** The shape of what the scan stores: trimmed title and category, a text icon of at most
      three characters, and a one-line description. */
  predicate WellShaped(st: ScanState)
  {
    && (|st.title| > 0 ==> !IsTrimmed(st.title[0]) && !IsTrimmed(st.title[|st.title| - 1]))
    && (|st.category| > 0 ==> !IsTrimmed(st.category[0]) && !IsTrimmed(st.category[|st.category| - 1]))
    && (st.image.Some? && st.image.value.TextIcon? ==> |st.image.value.text| <= 3)
    && '\n' !in st.description
  }

  /** No icon element has produced an image. */
  predicate TextIconsOnly(st: ScanState)
  {
    st.image.Some? ==> st.image.value.TextIcon?
  }

  // ---------------------------------------------------------------------------------------
  // The loop as the source writes it

  /** The `while` loop of `loadExperimentInfo`, updating its locals event by event. */
  method ScanMetadata(events: seq<XmlEvent>, language: string) returns (r: Result<ScanState, ScanError>)
    ensures r == Scan(events, 0, Initial, language)
  {
    var p := 0;
    var st := Initial;
    while p < |events|
      invariant p <= |events|
      invariant Scan(events, p, st, language) == Scan(events, 0, Initial, language)
      decreases |events| - p
    {
      ghost var step := Step(events, p, st, language);
      var ev := events[p];
      var next := p + 1;
      match ev {
        case Malformed =>
          return Err(XmlError);
        case Text(_) =>
        case EndTag(name, depth) =>
          if name == "phyphox" {
            if depth == st.phyphoxDepth {
              st := st.(phyphoxDepth := -1);
            }
          } else if name == "translations" {
            if depth == st.translationBlockDepth {
              st := st.(translationBlockDepth := -1);
            }
          } else if name == "translation" {
            if depth == st.translationDepth {
              st := st.(translationDepth := -1);
            }
          }
        case StartTag(name, depth, _) =>
          if name == "phyphox" {
            if st.phyphoxDepth < 0 {
              st := st.(phyphoxDepth := depth);
            }
          } else if name == "translations" {
            if depth == st.phyphoxDepth + 1 && st.translationBlockDepth < 0 {
              st := st.(translationBlockDepth := depth);
            }
          } else if name == "translation" {
            if depth == st.translationBlockDepth + 1 && st.translationDepth < 0 {
              var locale := AttributeValue(ev, "locale");
              if locale.None? {
                return Err(MissingLocale);
              }
              if locale.value == language {
                st := st.(translationDepth := depth);
              }
            }
          } else if IsMetadata(name) && AtMetadataDepth(st, depth) {
            // `nextText()`, then the `type` attribute, then the trimmed text stored
            var m := TakeMetadata(events, p, st);
            if m.Err? {
              return Err(m.error);
            }
            st, next := m.value.0, m.value.1;
          }
      }
      assert step == Ok((st, next));
      p := next;
    }
    return Ok(st);
  }

  // ---------------------------------------------------------------------------------------
  // After the loop

  /** The default icon as written: `title.substring(0, 3)`, which throws
      `StringIndexOutOfBoundsException` (`None`) for a title shorter than three characters. */
  function DefaultIconAsWritten(title: string): (r: Option<Icon>)
    ensures r.Some? <==> |title| >= 3
  {
    match Substring(title, 0, 3)
    case Some(s) => Some(TextIcon(s))
    case None => None
  }

  /** A two-character title and no icon element: the default icon throws. */
  lemma ShortTitleDefaultIconThrows()
    ensures DefaultIconAsWritten("ab").None?
  {
  }

  /** The corrected default icon, beside the as-written one: the first three characters
      of the title, or the whole title when it is shorter. */
  function DefaultIcon(title: string): (r: Icon)
    ensures r.TextIcon? && |r.text| <= 3 && |r.text| <= |title| && r.text == title[..|r.text|]
    ensures |r.text| == |title| || |r.text| == 3
    ensures |title| >= 3 ==> DefaultIconAsWritten(title) == Some(r)
  {
    TextIcon(if |title| > 3 then title[..3] else title)
  }

  /** As written, the icon's `type` attribute is read after `nextText()`, when the parser
      is on the icon's end tag, which has no attributes. */
  function IconTypeAsWritten(events: seq<XmlEvent>, p: nat): (r: Option<string>)
    requires p < |events| && NextText(events, p).Ok?
    ensures r.None?
  {
    AttributeValue(events[NextText(events, p).value.1], "type")
  }

  /** So a base64 icon is taken as text: its first three characters become a text icon,
      where the start tag's attribute (what the rest of the model reads) gives the image. */
  lemma Base64IconAsWrittenIsText(data: string)
    ensures var events := [StartTag("icon", 2, map["type" := "base64"]), Text(data), EndTag("icon", 2)];
            && IconOf(data, IconTypeAsWritten(events, 0)).TextIcon?
            && IconOf(data, AttributeValue(events[0], "type")) == ImageIcon(data)
  {
    var events := [StartTag("icon", 2, map["type" := "base64"]), Text(data), EndTag("icon", 2)];
    assert NextText(events, 0).Ok?;
  }

  /** What one file contributes to the list. */
  datatype LoadOutcome =
    | Added(category: string, entry: Entry)
    | MissingTitle      // "Cannot add ... as it misses a title."
    | MissingCategory   // "Cannot add ... as it misses a category."
    | XmlFailure        // "Error loading ... (XML Exception)"
    | Crashed           // an exception nothing catches

  /** The scan, then the checks: a title and a category are required, and without an icon
      element the title provides a text icon of its first three characters, which throws
      for a shorter title. */
  function LoadOutcomeOf(events: seq<XmlEvent>, xmlFile: string, isAsset: bool, language: string): (r: LoadOutcome)
    ensures var sc := Scan(events, 0, Initial, language);
            && (r == XmlFailure <==> sc == Err(XmlError))
            && (r == MissingTitle <==> sc.Ok? && sc.value.title == "")
            && (r == MissingCategory <==> sc.Ok? && sc.value.title != "" && sc.value.category == "")
            && (r == Crashed <==>
                  sc == Err(MissingLocale)
                  || (sc.Ok? && sc.value.title != "" && sc.value.category != "" && sc.value.image.None?
                      && |sc.value.title| < 3))
            && (r.Added? ==>
                  sc.Ok? && r.category == sc.value.category
                  && r.entry.title == sc.value.title && r.entry.info == sc.value.description
                  && r.entry.xmlFile == xmlFile && r.entry.isAsset == isAsset
                  && r.entry.icon == (if sc.value.image.Some? then sc.value.image.value
                                      else TextIcon(sc.value.title[..3])))
    ensures r.Added? ==> r.entry.title != "" && r.category != ""
    ensures r.Added? ==> '\n' !in r.entry.info && r.entry.icon.TextIcon? && |r.entry.icon.text| <= 3
    ensures r.Added? ==> !IsTrimmed(r.entry.title[0]) && !IsTrimmed(r.category[0])
  {
    match Scan(events, 0, Initial, language)
    case Err(XmlError) => XmlFailure
    case Err(MissingLocale) => Crashed
    case Ok(st) =>
      if st.title == "" then MissingTitle
      else if st.category == "" then MissingCategory
      else
        var image := if st.image.Some? then Some(st.image.value) else DefaultIconAsWritten(st.title);
        if image.None? then Crashed
        else Added(st.category, Entry(image.value, st.title, st.description, xmlFile, isAsset))
  }

  /** `loadExperimentInfo`: scan the file, check it, and add it to the list. Nothing is
      added unless the file has a title and a category, and a file whose default icon
      throws adds nothing either. */
  method LoadExperimentInfo(list: ExperimentList, events: seq<XmlEvent>, xmlFile: string, isAsset: bool,
                            language: string) returns (outcome: LoadOutcome)
    requires list.Valid()
    modifies list`categories, list.Adapters()
    ensures outcome == LoadOutcomeOf(events, xmlFile, isAsset, language)
    ensures list.Valid()
    ensures list.Contents() == if outcome.Added? then AddToCatalogue(old(list.Contents()), outcome.category, outcome.entry)
                               else old(list.Contents())
  {
    ghost var before := list.Contents();
    var r := ScanMetadata(events, language);
    assert list.Contents() == before;
    if r.Err? {
      outcome := if r.error == XmlError then XmlFailure else Crashed;
      return;
    }
    var st := r.value;
    if st.title == "" {
      return MissingTitle;
    }
    if st.category == "" {
      return MissingCategory;
    }
    var image := if st.image.Some? then Some(st.image.value) else DefaultIconAsWritten(st.title);
    if image.None? {
      return Crashed;
    }
    var e := Entry(image.value, st.title, st.description, xmlFile, isAsset);
    list.AddExperiment(st.title, st.category, image.value, st.description, xmlFile, isAsset);
    assert list.Contents() == AddToCatalogue(before, st.category, e);
    outcome := Added(st.category, e);
  }
}
