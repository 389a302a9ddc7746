/**
 * `TVGuideConverter`: reads the listings document into a table of channels
 * (in first-insertion order, later metadata overwriting earlier) and a list
 * of programmes (in parse order), then renders them as an XMLTV element tree.
 */
module Converter {
  import opened Wrappers
  import opened CivilTime
  import opened TimeText
  import opened Listings
  import Merge

  /** What `parse_json` is given: text that is not JSON, JSON that is not an array, or an array of channel objects. */
  datatype Document = NotJson | NotArray | Array(items: seq<Channel>)

  /** An entry of `self.channels`. */
  datatype ChannelInfo = ChannelInfo(id: string, title: string, slug: string, logoUrl: string, epg: string, paId: string)

  /** An entry of `self.programmes`. */
  datatype Programme = Programme(
    paId: string, title: string, kind: string, start: DateTime, stop: DateTime,
    channel: string, imageUrl: string, isNew: bool)

  /** `d.get(key, '')`. */
  function OrEmpty(o: Option<string>): string {
    if o.Some? then o.value else ""
  }

  /** The position of the first absent field, or the number of fields when all are present. */
  function FirstAbsent(present: seq<bool>): (k: nat)
    ensures k <= |present|
    ensures forall j :: 0 <= j < k ==> present[j]
    ensures k < |present| ==> !present[k]
  {
    if present == [] || !present[0] then 0 else 1 + FirstAbsent(present[1..])
  }

  const CHANNEL_FIELDS: seq<string> := ["pa_id", "title", "schedules"]
  const SCHEDULE_FIELDS: seq<string> := ["pa_id", "title", "start_at", "duration"]

  function ChannelPresence(c: Channel): seq<bool> {
    [c.paId.Some?, c.title.Some?, c.schedules.Some?]
  }

  function SchedulePresence(s: Schedule): seq<bool> {
    [s.paId.Some?, s.title.Some?, s.startAt.Some?, s.duration.Some?]
  }

  /** The required-field check of `_parse_channel`: the first missing field, in the order `pa_id`, `title`, `schedules`. */
  function CheckChannel(c: Channel): (r: Option<Err>)
    ensures r.None? <==> c.paId.Some? && c.title.Some? && c.schedules.Some?
    ensures r.Some? ==> exists k :: (0 <= k < |CHANNEL_FIELDS| && r.value == MissingField(CHANNEL_FIELDS[k], false)
      && !ChannelPresence(c)[k] && forall j :: 0 <= j < k ==> ChannelPresence(c)[j])
  {
    var present := ChannelPresence(c);
    var k := FirstAbsent(present);
    assert k == |present| ==> present[0] && present[1] && present[2];
    if k < |CHANNEL_FIELDS| then Some(MissingField(CHANNEL_FIELDS[k], false)) else None
  }

  /** `channel_data.get('slug', channel_data['pa_id'])`: a present slug wins, even an empty one. */
  function ChannelId(c: Channel): string
    requires c.paId.Some?
  {
    if c.slug.Some? then c.slug.value else c.paId.value
  }

  function Info(c: Channel): ChannelInfo
    requires CheckChannel(c).None?
  {
    ChannelInfo(ChannelId(c), c.title.value, OrEmpty(c.slug), OrEmpty(c.logoUrl), OrEmpty(c.epg), c.paId.value)
  }

  /** A programme whose times `_format_xmltv_time` can write. */
  predicate ValidProgramme(p: Programme) {
    && ValidDateTime(p.start) && InPythonRange(p.start.date)
    && ValidDateTime(p.stop) && InPythonRange(p.stop.date)
  }

  /**
   * `_parse_programme` on one schedule: the required-field check, the
   * `start_at` parse, then the stop time (the start truncated to the minute
   * plus `duration` minutes), which `fromtimestamp` must be able to build.
   */
  function ProgrammeOf(s: Schedule, channelId: string): (r: Result<Programme, Err>)
    ensures r.Success? ==> ValidProgramme(r.value) && r.value.channel == channelId
    ensures r.Failure? ==> ParseError(r.error)
  {
    var present := SchedulePresence(s);
    var k := FirstAbsent(present);
    assert k == |present| ==> present[0] && present[1] && present[2] && present[3];
    if k < |SCHEDULE_FIELDS| then Failure(MissingField(SCHEDULE_FIELDS[k], true))
    else match ParseStartAt(s.startAt.value)
      case None => Failure(InvalidStartAt)
      case Some(start) =>
        var stop := StopTime(start, s.duration.value);
        if !Representable(stop) then Failure(StopOutOfRange)
        else Success(Programme(s.paId.value, s.title.value, OrEmpty(s.kind), start, stop,
                               channelId, OrEmpty(s.imageUrl), s.isNew == Some(true)))
  }

  /** The errors `parse_json` can report about a well-formed JSON array. */
  predicate ParseError(e: Err) {
    e.MissingField? || e == InvalidStartAt || e == StopOutOfRange
  }

  /** The converter's state: channel ids in insertion order, the channel table and the programme list. */
  datatype Parsed = Parsed(ids: seq<string>, channels: map<string, ChannelInfo>, programmes: seq<Programme>)

  /**
   * What every state the converter reaches satisfies: the id list orders
   * exactly the table's keys, each entry carries its own key, and every
   * programme is writable and belongs to a stored channel.
   */
  ghost predicate WellParsed(st: Parsed) {
    && Merge.Distinct(st.ids)
    && (forall id :: id in st.channels <==> id in st.ids)
    && (forall id :: id in st.channels ==> st.channels[id].id == id)
    && (forall i :: 0 <= i < |st.programmes| ==> ValidProgramme(st.programmes[i]) && st.programmes[i].channel in st.channels)
  }

  /** `self.channels[channel_id] = {...}`: a new key goes last, an existing one keeps its place. */
  function StoreChannel(st: Parsed, c: Channel): Parsed
    requires CheckChannel(c).None?
  {
    var id := ChannelId(c);
    Parsed(if id in st.channels then st.ids else st.ids + [id], st.channels[id := Info(c)], st.programmes)
  }

  /** What `_parse_programme` makes of each schedule of a channel. */
  function Outcomes(ss: seq<Schedule>, channelId: string): (rs: seq<Result<Programme, Err>>)
    ensures |rs| == |ss|
    ensures forall i :: 0 <= i < |rs| && rs[i].Success? ==> ValidProgramme(rs[i].value) && rs[i].value.channel == channelId
  {
    seq(|ss|, i requires 0 <= i < |ss| => ProgrammeOf(ss[i], channelId))
  }

  /** Appends the programmes of `rs` up to the first failure, which it reports; what was appended stays. */
  function AppendUntilFailure(ps: seq<Programme>, rs: seq<Result<Programme, Err>>): (seq<Programme>, Option<Err>)
    decreases |rs|
  {
    if rs == [] then (ps, None)
    else match rs[0]
      case Failure(e) => (ps, Some(e))
      case Success(p) => AppendUntilFailure(ps + [p], rs[1..])
  }

  predicate AllSucceed(rs: seq<Result<Programme, Err>>) {
    forall i :: 0 <= i < |rs| ==> rs[i].Success?
  }

  function Values(rs: seq<Result<Programme, Err>>): (ps: seq<Programme>)
    requires AllSucceed(rs)
    ensures |ps| == |rs| && forall i :: 0 <= i < |rs| ==> rs[i] == Success(ps[i])
    decreases |rs|
  {
    if rs == [] then [] else [rs[0].value] + Values(rs[1..])
  }

  function AddOutcomes(st: Parsed, rs: seq<Result<Programme, Err>>): (Parsed, Option<Err>) {
    var (ps, err) := AppendUntilFailure(st.programmes, rs);
    (st.(programmes := ps), err)
  }

  /** The schedule loop of `_parse_channel`: programmes are appended until one fails, and what was appended stays. */
  function AddProgrammes(st: Parsed, ss: seq<Schedule>, channelId: string): (Parsed, Option<Err>) {
    AddOutcomes(st, Outcomes(ss, channelId))
  }

  /** An error of the schedule loop is that of one of the schedules, and what was there before stays. */
  lemma AddProgrammesError(st: Parsed, ss: seq<Schedule>, channelId: string)
    ensures var (out, err) := AddProgrammes(st, ss, channelId);
      && st.programmes <= out.programmes && out.ids == st.ids && out.channels == st.channels
      && (err.Some? ==> exists i :: 0 <= i < |ss| && ProgrammeOf(ss[i], channelId) == Failure(err.value))
  {
    var rs := Outcomes(ss, channelId);
    AppendUntilFailureSpec(st.programmes, rs);
    var (ps, err) := AppendUntilFailure(st.programmes, rs);
    if err.Some? {
      var k := |ps| - |st.programmes|;
      assert rs[k] == ProgrammeOf(ss[k], channelId);
    }
  }

  /**
   * `_parse_channel`: a channel missing a required field changes nothing;
   * otherwise its metadata is stored under its id and its schedules are
   * parsed in order, an error being that of the first schedule that fails.
   */
  function ChannelStep(st: Parsed, c: Channel): (r: (Parsed, Option<Err>))
    ensures CheckChannel(c).Some? ==> r == (st, CheckChannel(c))
    ensures CheckChannel(c).None? ==>
      && ChannelId(c) in r.0.channels && r.0.channels[ChannelId(c)] == Info(c)
      && (r.0.ids == st.ids || r.0.ids == st.ids + [ChannelId(c)])
    ensures CheckChannel(c).None? && r.1.Some? ==>
      exists i :: 0 <= i < |c.schedules.value| && ProgrammeOf(c.schedules.value[i], ChannelId(c)) == Failure(r.1.value)
    ensures r.1.Some? ==> ParseError(r.1.value)
    ensures st.programmes <= r.0.programmes
  {
    match CheckChannel(c)
    case Some(e) => (st, Some(e))
    case None =>
      var stored := StoreChannel(st, c);
      AddProgrammesError(stored, c.schedules.value, ChannelId(c));
      AddProgrammes(stored, c.schedules.value, ChannelId(c))
  }

  /** The channel loop of `parse_json`: channels are parsed until one fails, and what was parsed stays. */
  function ParseItems(st: Parsed, cs: seq<Channel>): (r: (Parsed, Option<Err>))
    ensures r.1.Some? ==> ParseError(r.1.value)
    decreases |cs|
  {
    if cs == [] then (st, None)
    else
      var (next, err) := ChannelStep(st, cs[0]);
      if err.Some? then (next, err) else ParseItems(next, cs[1..])
  }

  /**
   * `parse_json`: text that is not a JSON array is refused before anything
   * changes; an array only ever appends programmes, one per schedule in
   * document order when it succeeds.
   */
  function ParseDocument(st: Parsed, doc: Document): (r: (Parsed, Option<Err>))
    ensures !doc.Array? ==> r == (st, Some(InvalidDocument))
    ensures r.1 == Some(InvalidDocument) <==> !doc.Array?
    ensures st.programmes <= r.0.programmes
    ensures doc.Array? && r.1.None? ==>
      AllSucceed(DocOutcomes(doc.items)) && r.0.programmes == st.programmes + Values(DocOutcomes(doc.items))
  {
    match doc
    case Array(cs) =>
      ParsedProgrammes(st, cs);
      ParseItems(st, cs)
    case _ => (st, Some(InvalidDocument))
  }

  /** An XML element: tag, attributes in the order they are set, text, children. */
  datatype Element = Element(tag: string, attrs: seq<(string, string)>, text: string, children: seq<Element>)

  function ChannelElement(id: string, info: ChannelInfo): Element {
    Element("channel", [("id", id)], "",
      [Element("display-name", [], info.title, [])]
      + (if info.logoUrl != "" then [Element("icon", [("src", info.logoUrl)], "", [])] else []))
  }

  /** A `<programme>`: its `start` and `stop` attributes read back as the programme's own times. */
  function ProgrammeElement(p: Programme): (e: Element)
    requires ValidProgramme(p)
    ensures e.tag == "programme" && |e.attrs| == 3
    ensures e.attrs[0].0 == "start" && ParseXmltvTime(e.attrs[0].1) == Some(p.start)
    ensures e.attrs[1].0 == "stop" && ParseXmltvTime(e.attrs[1].1) == Some(p.stop)
    ensures e.attrs[2] == ("channel", p.channel)
    ensures |e.children| >= 1 && e.children[0] == Element("title", [], p.title, [])
  {
    Element("programme", [("start", FormatXmltvTime(p.start)), ("stop", FormatXmltvTime(p.stop)), ("channel", p.channel)], "",
      [Element("title", [], p.title, [])]
      + (if p.kind != "" then [Element("category", [], p.kind, [])] else [])
      + (if p.imageUrl != "" then [Element("icon", [("src", p.imageUrl)], "", [])] else [])
      + (if p.isNew then [Element("new", [], "", [])] else []))
  }

  predicate Writable(st: Parsed) {
    && (forall i :: 0 <= i < |st.ids| ==> st.ids[i] in st.channels)
    && AllValid(st.programmes)
  }

  function ChannelElements(st: Parsed): seq<Element>
    requires Writable(st)
  {
    seq(|st.ids|, i requires 0 <= i < |st.ids| => ChannelElement(st.ids[i], st.channels[st.ids[i]]))
  }

  predicate AllValid(ps: seq<Programme>) {
    forall i :: 0 <= i < |ps| ==> ValidProgramme(ps[i])
  }

  function ProgrammeElements(ps: seq<Programme>): seq<Element>
    requires AllValid(ps)
  {
    seq(|ps|, i requires 0 <= i < |ps| => ProgrammeElement(ps[i]))
  }

  /**
   * The `tv` root of `generate_xmltv`, stamped with `date`: one `<channel>`
   * per id in insertion order, then one `<programme>` per programme in
   * list order.
   */
  function Render(st: Parsed, date: string): (e: Element)
    requires Writable(st)
    ensures e.tag == "tv" && |e.attrs| == 3 && e.attrs[0] == ("date", date)
    ensures |e.children| == |st.ids| + |st.programmes|
    ensures forall i :: 0 <= i < |st.ids| ==> e.children[i] == ChannelElement(st.ids[i], st.channels[st.ids[i]])
    ensures forall j :: 0 <= j < |st.programmes| ==> e.children[|st.ids| + j] == ProgrammeElement(st.programmes[j])
  {
    Element("tv", [("date", date), ("source-info-name", "TV Guide API"), ("generator-info-name", "tvguide2xmltv/1.0")], "",
      ChannelElements(st) + ProgrammeElements(st.programmes))
  }

  /**
   * The root `date` attribute as written: the local wall clock labelled
   * `+0000`, which reads back as the local fields at offset zero.
   */
  function LocalStamp(localNow: DateTime): (s: string)
    requires ValidDateTime(localNow) && InPythonRange(localNow.date)
    ensures ParseXmltvTime(s) == Some(localNow.(offset := Some(0)))
    ensures localNow.offset.Some? ==>
      UtcSeconds(ParseXmltvTime(s).value) == UtcSeconds(localNow) + 60 * localNow.offset.value
  {
    var z := localNow.(offset := Some(0));
    assert XmltvDigits(localNow) + " +0000" == FormatXmltvTime(z) by {
      UtcOffsetText();
      assert XmltvDigits(z) == XmltvDigits(localNow);
    }
    XmltvDigits(localNow) + " +0000"
  }

  /**
   * The root `date` attribute as intended: it reads back as the current
   * instant itself, on the UTC clock.
   */
  function UtcStamp(clock: DateTime): (s: string)
    requires ValidDateTime(clock) && clock.offset.Some? && InPythonRange(ToUtc(clock).date)
    ensures ParseXmltvTime(s) == Some(ToUtc(clock))
    ensures UtcSeconds(ParseXmltvTime(s).value) == UtcSeconds(clock)
  {
    FormatXmltvTime(ToUtc(clock))
  }

  /** The channel loop of `generate_xmltv`, over the table in insertion order. */
  method RenderChannels(st: Parsed) returns (es: seq<Element>)
    requires Writable(st)
    ensures es == ChannelElements(st)
  {
    es := [];
    var i := 0;
    while i < |st.ids|
      invariant 0 <= i <= |st.ids| && |es| == i
      invariant forall j :: 0 <= j < i ==> es[j] == ChannelElement(st.ids[j], st.channels[st.ids[j]])
    {
      es := es + [ChannelElement(st.ids[i], st.channels[st.ids[i]])];
      i := i + 1;
    }
  }

  /** The programme loop of `generate_xmltv`, in parse order. */
  method RenderProgrammes(ps: seq<Programme>) returns (es: seq<Element>)
    requires AllValid(ps)
    ensures es == ProgrammeElements(ps)
  {
    es := [];
    var i := 0;
    while i < |ps|
      invariant 0 <= i <= |ps| && es == ProgrammeElements(ps[..i])
    {
      ProgrammeElementsSnoc(ps, i);
      es := es + [ProgrammeElement(ps[i])];
      i := i + 1;
    }
    assert ps[..i] == ps;
  }

  lemma ProgrammeElementsSnoc(ps: seq<Programme>, i: nat)
    requires AllValid(ps) && i < |ps|
    ensures AllValid(ps[..i]) && AllValid(ps[..i + 1])
    ensures ProgrammeElements(ps[..i + 1]) == ProgrammeElements(ps[..i]) + [ProgrammeElement(ps[i])]
  {
    var a, b := ProgrammeElements(ps[..i]), ProgrammeElements(ps[..i + 1]);
    forall j | 0 <= j < i ensures b[j] == a[j] {
      assert ps[..i][j] == ps[j] == ps[..i + 1][j];
    }
    assert ps[..i + 1][i] == ps[i];
    SnocOf(a, b, ProgrammeElement(ps[i]));
  }

  /** A sequence that agrees with `a` and then holds `x` is `a + [x]`. */
  lemma SnocOf<T>(a: seq<T>, b: seq<T>, x: T)
    requires |b| == |a| + 1 && b[|a|] == x
    requires forall j :: 0 <= j < |a| ==> b[j] == a[j]
    ensures b == a + [x]
  {
  }

  class TvGuideConverter {
    var ids: seq<string>
    var channels: map<string, ChannelInfo>
    var programmes: seq<Programme>

    function State(): Parsed
      reads this
    {
      Parsed(ids, channels, programmes)
    }

    constructor()
      ensures State() == Parsed([], map[], [])
    {
      ids, channels, programmes := [], map[], [];
    }

    /** `_parse_programme`: appends the programme, or raises and changes nothing. */
    method ParseProgramme(s: Schedule, channelId: string) returns (err: Option<Err>)
      modifies this
      ensures ids == old(ids) && channels == old(channels)
      ensures match ProgrammeOf(s, channelId)
        case Success(p) => programmes == old(programmes) + [p] && err == None
        case Failure(e) => programmes == old(programmes) && err == Some(e)
    {
      match ProgrammeOf(s, channelId)
      case Failure(e) =>
        return Some(e);
      case Success(p) =>
        programmes := programmes + [p];
        return None;
    }

    /** `_parse_channel`. */
    method ParseChannel(c: Channel) returns (err: Option<Err>)
      modifies this
      ensures (State(), err) == ChannelStep(old(State()), c)
    {
      err := CheckChannel(c);
      if err.Some? {
        return;
      }
      var id := ChannelId(c);
      if id !in channels {
        ids := ids + [id];
      }
      channels := channels[id := Info(c)];
      var ss := c.schedules.value;
      var i := 0;
      while i < |ss|
        invariant 0 <= i <= |ss|
        invariant err.None?
        invariant ChannelStep(old(State()), c) == AddOutcomes(State(), Outcomes(ss, id)[i..])
      {
        assert Outcomes(ss, id)[i..][0] == ProgrammeOf(ss[i], id);
        assert Outcomes(ss, id)[i..][1..] == Outcomes(ss, id)[i + 1..];
        err := ParseProgramme(ss[i], id);
        if err.Some? {
          return;
        }
        i := i + 1;
      }
    }

    /** `parse_json`. */
    method ParseJson(doc: Document) returns (err: Option<Err>)
      modifies this
      ensures (State(), err) == ParseDocument(old(State()), doc)
    {
      if !doc.Array? {
        return Some(InvalidDocument);
      }
      var cs := doc.items;
      var i := 0;
      err := None;
      while i < |cs|
        invariant 0 <= i <= |cs|
        invariant err.None?
        invariant ParseDocument(old(State()), doc) == ParseItems(State(), cs[i..])
      {
        assert cs[i..][1..] == cs[i + 1..];
        err := ParseChannel(cs[i]);
        if err.Some? {
          return;
        }
        i := i + 1;
      }
    }

    /** `generate_xmltv`, stamped from the clock `clock`. */
    method GenerateXmltv(clock: DateTime) returns (tv: Element)
      requires WellParsed(State())
      requires ValidDateTime(clock) && clock.offset.Some? && InPythonRange(ToUtc(clock).date)
      ensures Writable(State()) && tv == Render(State(), UtcStamp(clock))
    {
      var st := State();
      assert Writable(st);
      var chans := RenderChannels(st);
      var progs := RenderProgrammes(programmes);
      var children := chans + progs;
      tv := Element("tv", [("date", UtcStamp(clock)), ("source-info-name", "TV Guide API"),
                           ("generator-info-name", "tvguide2xmltv/1.0")], "", children);
    }
  }
  // ---------------------------------------------------------------------
  // Parsing: what the state looks like after a run of `parse_json`
  // ---------------------------------------------------------------------

  /** The required fields of a schedule, first missing one first: the error ordering of `_parse_programme`. */
  lemma ProgrammeErrors(s: Schedule, channelId: string)
    ensures var r := ProgrammeOf(s, channelId);
      && (r.Failure? && r.error.MissingField? ==> exists k :: (0 <= k < |SCHEDULE_FIELDS| && r.error == MissingField(SCHEDULE_FIELDS[k], true)
            && !SchedulePresence(s)[k] && forall j :: 0 <= j < k ==> SchedulePresence(s)[j]))
      && (r == Failure(InvalidStartAt) <==>
            s.paId.Some? && s.title.Some? && s.startAt.Some? && s.duration.Some? && ParseStartAt(s.startAt.value).None?)
      && (r.Success? <==> (s.paId.Some? && s.title.Some? && s.startAt.Some? && s.duration.Some?
            && ParseStartAt(s.startAt.value).Some? && Representable(StopTime(ParseStartAt(s.startAt.value).value, s.duration.value))))
  {
    var present := SchedulePresence(s);
    var k := FirstAbsent(present);
    assert k == |present| <==> present[0] && present[1] && present[2] && present[3];
  }

  /**
   * A parsed programme carries the schedule's fields, with `''` and `False`
   * for the optional ones, and stops `duration` minutes after its start
   * truncated to the minute, in the start's own offset.
   */
  lemma ProgrammeFields(s: Schedule, channelId: string)
    requires ProgrammeOf(s, channelId).Success?
    ensures var p := ProgrammeOf(s, channelId).value;
      && s.paId == Some(p.paId) && s.title == Some(p.title) && s.startAt.Some?
      && ParseStartAt(s.startAt.value) == Some(p.start) && s.duration.Some?
      && p.stop.offset == p.start.offset && p.stop.second == 0
      && LocalSeconds(p.stop) == LocalSeconds(p.start) - p.start.second + 60 * s.duration.value
      && (p.kind == if s.kind.Some? then s.kind.value else "")
      && (p.imageUrl == if s.imageUrl.Some? then s.imageUrl.value else "")
      && (p.isNew <==> s.isNew == Some(true))
  {
    ProgrammeErrors(s, channelId);
  }

  lemma SampleStartText(t: DateTime)
    requires t == DateTime(Date(2025, 1, 15), 20, 0, 0, None)
    ensures IsoText(t) == "2025-01-15T20:00:00"
  {
    PadYear();
    PadTwo(1, "01");
    PadTwo(15, "15");
    PadTwo(20, "20");
    PadTwo(0, "00");
    assert FormatDate(t.date) == "2025-01-15";
    assert ClockText(t) == "20:00:00";
  }

  lemma PadYear()
    ensures Pad(2025, 4) == "2025"
  {
  }

  /** Two-digit padding, for a digit pair given as text. */
  lemma PadTwo(n: int, text: string)
    requires 0 <= n < 100 && |text| == 2
    requires text[0] == DigitChar(n / 10) && text[1] == DigitChar(n % 10)
    ensures Pad(n, 2) == text
  {
  }

  lemma UtcOffsetText()
    ensures OffsetText(Some(0)) == "+0000"
  {
    assert Pad(0, 2) == "00";
  }

  /** Thirty minutes after 20:00 on the UTC clock is 20:30 the same day. */
  lemma SampleStop(start: DateTime)
    requires start == DateTime(Date(2025, 1, 15), 20, 0, 0, Some(0))
    ensures StopTime(start, 30) == DateTime(Date(2025, 1, 15), 20, 30, 0, Some(0))
  {
    var r := StopTime(start, 30);
    var o1, o2 := Ordinal(r.date), Ordinal(start.date);
    var x := r.hour * 3600 + r.minute * 60;
    assert (o1 - o2) * 86400 == 73800 - x;
    assert 0 <= x < 86400;
    assert r.hour * 60 + r.minute == 1230;
    DateLeIsOrdinalOrder(r.date, start.date);
  }

  /** The success path of `_parse_programme`, for a start time already read. */
  lemma ProgrammeOfParsed(s: Schedule, channelId: string, start: DateTime)
    requires s.paId.Some? && s.title.Some? && s.startAt.Some? && s.duration.Some?
    requires ParseStartAt(s.startAt.value) == Some(start)
    requires Representable(StopTime(start, s.duration.value))
    ensures ProgrammeOf(s, channelId) == Success(Programme(s.paId.value, s.title.value, OrEmpty(s.kind), start,
      StopTime(start, s.duration.value), channelId, OrEmpty(s.imageUrl), s.isNew == Some(true)))
  {
    ProgrammeErrors(s, channelId);
  }

  /**
   * A schedule starting at `0001-01-01T00:10:00+01:00` for 30 minutes is
   * refused: its stop is in year 0 on the UTC clock.
   */
  lemma YearZeroProgramme(s: Schedule, channelId: string, start: DateTime)
    requires s.paId.Some? && s.title.Some? && s.startAt.Some? && s.duration == Some(30)
    requires ParseStartAt(s.startAt.value) == Some(start)
    requires start.date.year == 1 && start.date.month == 1 && start.date.day == 1
    requires start.hour == 0 && start.minute == 10 && start.second == 0 && start.offset == Some(60)
    ensures ProgrammeOf(s, channelId) == Failure(StopOutOfRange)
  {
    YearZeroStop(start);
    ProgrammeStopRefused(s, channelId, start);
  }

  /** With every field present and `start_at` read, a stop `fromtimestamp` cannot build is the one error. */
  lemma ProgrammeStopRefused(s: Schedule, channelId: string, start: DateTime)
    requires s.paId.Some? && s.title.Some? && s.startAt.Some? && s.duration.Some?
    requires ParseStartAt(s.startAt.value) == Some(start)
    requires !Representable(StopTime(start, s.duration.value))
    ensures ProgrammeOf(s, channelId) == Failure(StopOutOfRange)
  {
    var present := SchedulePresence(s);
    assert present[0] && present[1] && present[2] && present[3];
    assert FirstAbsent(present) == |SCHEDULE_FIELDS|;
  }

  /** A UTC schedule: `2025-01-15T20:00:00Z` for 30 minutes runs from 20:00 to 20:30 at offset zero. */
  lemma ZuluProgrammeExample(s: Schedule)
    requires s == Schedule(Some("p1"), Some("News"), Some("2025-01-15T20:00:00Z"), Some(30), None, None, None)
    ensures ProgrammeOf(s, "bbc-one") == Success(Programme("p1", "News", "",
      DateTime(Date(2025, 1, 15), 20, 0, 0, Some(0)), DateTime(Date(2025, 1, 15), 20, 30, 0, Some(0)),
      "bbc-one", "", false))
  {
    var start := DateTime(Date(2025, 1, 15), 20, 0, 0, Some(0));
    ZuluSampleStart(s.startAt.value);
    SampleStop(start);
    SampleProgramme(s, start, DateTime(Date(2025, 1, 15), 20, 30, 0, Some(0)));
  }

  lemma SampleProgramme(s: Schedule, start: DateTime, stop: DateTime)
    requires s.paId == Some("p1") && s.title == Some("News") && s.startAt.Some? && s.duration == Some(30)
    requires s.kind.None? && s.imageUrl.None? && s.isNew.None?
    requires ParseStartAt(s.startAt.value) == Some(start) && StopTime(start, 30) == stop && Representable(stop)
    ensures ProgrammeOf(s, "bbc-one") == Success(Programme("p1", "News", "", start, stop, "bbc-one", "", false))
  {
    ProgrammeOfParsed(s, "bbc-one", start);
  }

  lemma ZuluSampleStart(text: string)
    requires text == "2025-01-15T20:00:00Z"
    ensures ParseStartAt(text) == Some(DateTime(Date(2025, 1, 15), 20, 0, 0, Some(0)))
  {
    var t := DateTime(Date(2025, 1, 15), 20, 0, 0, None);
    SampleStartText(t);
    assert text == IsoText(t) + "Z";
    ZuluStartAt(t);
  }

  /** The schedule loop appends the programmes of a prefix of the outcomes and stops at the first failure. */
  lemma {:induction false} AppendUntilFailureSpec(ps: seq<Programme>, rs: seq<Result<Programme, Err>>)
    ensures var (out, err) := AppendUntilFailure(ps, rs);
      && |ps| <= |out| <= |ps| + |rs| && out[..|ps|] == ps
      && (forall i :: 0 <= i < |out| - |ps| ==> rs[i] == Success(out[|ps| + i]))
      && (err.None? <==> |out| == |ps| + |rs|)
      && (err.Some? ==> rs[|out| - |ps|] == Failure(err.value))
      && (err.None? ==> AllSucceed(rs) && out == ps + Values(rs))
    decreases |rs|
  {
    if rs != [] && rs[0].Success? {
      var mid := ps + [rs[0].value];
      AppendUntilFailureSpec(mid, rs[1..]);
      var out := AppendUntilFailure(mid, rs[1..]).0;
      assert out[..|ps|] == out[..|mid|][..|ps|];
      assert out[|ps|] == out[..|mid|][|ps|];
      forall i | 1 <= i < |out| - |ps|
        ensures rs[i] == Success(out[|ps| + i])
      {
        assert rs[i] == rs[1..][i - 1];
      }
    }
  }

  /** Appending outcomes that each belong to a stored channel keeps the state well formed. */
  lemma {:induction false} AddOutcomesKeepsWellParsed(st: Parsed, rs: seq<Result<Programme, Err>>, channelId: string)
    requires WellParsed(st) && channelId in st.channels
    requires forall i :: 0 <= i < |rs| && rs[i].Success? ==> ValidProgramme(rs[i].value) && rs[i].value.channel == channelId
    ensures WellParsed(AddOutcomes(st, rs).0)
    decreases |rs|
  {
    if rs != [] && rs[0].Success? {
      AddOutcomesKeepsWellParsed(st.(programmes := st.programmes + [rs[0].value]), rs[1..], channelId);
    }
  }

  lemma StoreKeepsWellParsed(st: Parsed, c: Channel)
    requires WellParsed(st) && CheckChannel(c).None?
    ensures WellParsed(StoreChannel(st, c))
  {
  }

  /** Every state `parse_json` reaches, including after an error part-way, is one `generate_xmltv` can render. */
  lemma {:induction false} ParseKeepsWellParsed(st: Parsed, cs: seq<Channel>)
    requires WellParsed(st)
    ensures WellParsed(ParseItems(st, cs).0)
    decreases |cs|
  {
    if cs != [] && CheckChannel(cs[0]).None? {
      StoreKeepsWellParsed(st, cs[0]);
      var stored := StoreChannel(st, cs[0]);
      AddOutcomesKeepsWellParsed(stored, Outcomes(cs[0].schedules.value, ChannelId(cs[0])), ChannelId(cs[0]));
      ParseKeepsWellParsed(ChannelStep(st, cs[0]).0, cs[1..]);
    }
  }

  lemma ParseDocumentKeepsWellParsed(st: Parsed, doc: Document)
    requires WellParsed(st)
    ensures WellParsed(ParseDocument(st, doc).0)
  {
    if doc.Array? {
      ParseKeepsWellParsed(st, doc.items);
    }
  }

  lemma ValuesAppend(a: seq<Result<Programme, Err>>, b: seq<Result<Programme, Err>>)
    requires AllSucceed(a) && AllSucceed(b)
    ensures AllSucceed(a + b) && Values(a + b) == Values(a) + Values(b)
  {
    assert AllSucceed(a + b) by {
      forall i | 0 <= i < |a + b| ensures (a + b)[i].Success? {
        if i >= |a| {
          assert (a + b)[i] == b[i - |a|];
        }
      }
    }
  }

  lemma PrefixOfPrefix(a: seq<Programme>, b: seq<Programme>, c: seq<Programme>)
    requires |a| <= |b| <= |c| && b[..|a|] == a && c[..|b|] == b
    ensures c[..|a|] == a
  {
    assert c[..|a|] == c[..|b|][..|a|];
  }

  /** Appending the programmes of two runs in turn appends those of the joined run. */
  lemma ValuesThenValues(ps: seq<Programme>, a: seq<Result<Programme, Err>>, b: seq<Result<Programme, Err>>,
                         mid: seq<Programme>, out: seq<Programme>)
    requires AllSucceed(a) && AllSucceed(b) && mid == ps + Values(a) && out == mid + Values(b)
    ensures AllSucceed(a + b) && out == ps + Values(a + b)
  {
    ValuesAppend(a, b);
    Merge.ConcatAssoc(ps, Values(a), Values(b));
  }

  /** What one channel adds to the programme list. */
  function ChannelOutcomes(c: Channel): seq<Result<Programme, Err>> {
    if CheckChannel(c).None? then Outcomes(c.schedules.value, ChannelId(c)) else []
  }

  lemma ChannelStepProgrammes(st: Parsed, c: Channel)
    ensures var (mid, e) := ChannelStep(st, c);
      && |st.programmes| <= |mid.programmes| && mid.programmes[..|st.programmes|] == st.programmes
      && (e.None? ==> AllSucceed(ChannelOutcomes(c)) && mid.programmes == st.programmes + Values(ChannelOutcomes(c)))
  {
    if CheckChannel(c).None? {
      AppendUntilFailureSpec(st.programmes, ChannelOutcomes(c));
    }
  }

  /** What `_parse_programme` makes of each schedule of a document, in document order. */
  function DocOutcomes(cs: seq<Channel>): seq<Result<Programme, Err>>
    decreases |cs|
  {
    if cs == [] then [] else ChannelOutcomes(cs[0]) + DocOutcomes(cs[1..])
  }

  /**
   * `parse_json` only appends programmes; when it succeeds it has appended
   * exactly one per schedule of the document, in document order.
   */
  lemma {:induction false} ParsedProgrammes(st: Parsed, cs: seq<Channel>)
    ensures var (out, err) := ParseItems(st, cs);
      && |st.programmes| <= |out.programmes| && out.programmes[..|st.programmes|] == st.programmes
      && (err.None? ==> AllSucceed(DocOutcomes(cs)) && out.programmes == st.programmes + Values(DocOutcomes(cs)))
    decreases |cs|
  {
    if cs != [] {
      ChannelStepProgrammes(st, cs[0]);
      var (mid, e) := ChannelStep(st, cs[0]);
      if e.None? {
        ParsedProgrammes(mid, cs[1..]);
        var out := ParseItems(mid, cs[1..]).0;
        PrefixOfPrefix(st.programmes, mid.programmes, out.programmes);
        if ParseItems(mid, cs[1..]).1.None? {
          assert DocOutcomes(cs) == ChannelOutcomes(cs[0]) + DocOutcomes(cs[1..]);
          ValuesThenValues(st.programmes, ChannelOutcomes(cs[0]), DocOutcomes(cs[1..]), mid.programmes, out.programmes);
        }
      }
    }
  }
  /** A channel object with all its required fields. */
  predicate Complete(c: Channel) {
    c.paId.Some? && c.title.Some? && c.schedules.Some?
  }

  predicate AllComplete(cs: seq<Channel>) {
    forall i :: 0 <= i < |cs| ==> Complete(cs[i])
  }

  function IdsOf(cs: seq<Channel>): (ids: seq<string>)
    requires AllComplete(cs)
    ensures |ids| == |cs| && forall i :: 0 <= i < |cs| ==> ids[i] == ChannelId(cs[i])
  {
    seq(|cs|, i requires 0 <= i < |cs| => ChannelId(cs[i]))
  }

  lemma IdsOfCons(cs: seq<Channel>)
    requires cs != [] && AllComplete(cs)
    ensures AllComplete(cs[1..]) && IdsOf(cs) == [ChannelId(cs[0])] + IdsOf(cs[1..])
  {
    assert AllComplete(cs[1..]) by {
      forall i | 0 <= i < |cs| - 1 ensures Complete(cs[1..][i]) {
        assert cs[1..][i] == cs[i + 1];
      }
    }
    var a, b := IdsOf(cs), [ChannelId(cs[0])] + IdsOf(cs[1..]);
    forall i | 0 <= i < |a| ensures a[i] == b[i] {
      if i > 0 {
        assert cs[1..][i - 1] == cs[i];
      }
    }
  }

  /** One channel: its id joins the order if new, and its metadata replaces what was stored under that id. */
  lemma ChannelStepChannels(st: Parsed, c: Channel)
    requires WellParsed(st)
    ensures var (mid, e) := ChannelStep(st, c);
      && WellParsed(mid)
      && (e.None? ==> (Complete(c)
           && mid.ids == (if ChannelId(c) in st.ids then st.ids else st.ids + [ChannelId(c)])
           && mid.channels == st.channels[ChannelId(c) := Info(c)]))
  {
    if CheckChannel(c).None? {
      var stored := StoreChannel(st, c);
      StoreKeepsWellParsed(st, c);
      AddOutcomesKeepsWellParsed(stored, ChannelOutcomes(c), ChannelId(c));
      assert ChannelStep(st, c).0.ids == stored.ids && ChannelStep(st, c).0.channels == stored.channels;
    }
  }

  /** Storing under an id keeps the order of first appearance of the ids stored so far and that one. */
  lemma StoredIds(ids: seq<string>, id: string, known: bool)
    requires Merge.Distinct(ids) && known == (id in ids)
    ensures Merge.Dedup(ids + [id]) == if known then ids else ids + [id]
  {
    Merge.DedupOfDistinct(ids);
    assert (ids + [id])[..|ids|] == ids;
  }

  /** A successful `parse_json` has checked every channel object. */
  lemma {:induction false} ParsedAllComplete(st: Parsed, cs: seq<Channel>)
    requires ParseItems(st, cs).1.None?
    ensures AllComplete(cs)
    decreases |cs|
  {
    if cs != [] {
      assert CheckChannel(cs[0]).None?;
      ParsedAllComplete(ChannelStep(st, cs[0]).0, cs[1..]);
      forall i | 1 <= i < |cs| ensures Complete(cs[i]) {
        assert cs[i] == cs[1..][i - 1];
      }
    }
  }

  /**
   * After a successful `parse_json` the channel ids are those already stored
   * followed by the document's new ids in order of first appearance.
   */
  lemma {:induction false} ParsedChannelOrder(st: Parsed, cs: seq<Channel>)
    requires WellParsed(st) && ParseItems(st, cs).1.None? && AllComplete(cs)
    ensures ParseItems(st, cs).0.ids == Merge.Dedup(st.ids + IdsOf(cs))
    decreases |cs|
  {
    if cs == [] {
      Merge.DedupOfDistinct(st.ids);
      assert st.ids + IdsOf(cs) == st.ids;
    } else {
      ChannelStepChannels(st, cs[0]);
      var mid := ChannelStep(st, cs[0]).0;
      assert ParseItems(st, cs) == ParseItems(mid, cs[1..]);
      ParsedChannelOrder(mid, cs[1..]);
      IdsOfCons(cs);
      DedupStep(st.ids, ChannelId(cs[0]), IdsOf(cs[1..]), mid.ids, ParseItems(st, cs).0.ids);
    }
  }

  /**
   * Adding one id to distinct ids as a dict key would, then more, orders
   * the ids as adding them all at once.
   */
  lemma DedupStep(a: seq<string>, id: string, rest: seq<string>, mid: seq<string>, out: seq<string>)
    requires Merge.Distinct(a) && mid == (if id in a then a else a + [id]) && out == Merge.Dedup(mid + rest)
    ensures out == Merge.Dedup(a + ([id] + rest))
  {
    StoredIds(a, id, id in a);
    Merge.DedupPrefix(a + [id], rest);
    Merge.ConcatAssoc(a, [id], rest);
  }

  /** A stored channel whose id the document does not mention keeps its metadata. */
  lemma {:induction false} ParsedChannelsUntouched(st: Parsed, cs: seq<Channel>)
    requires WellParsed(st) && ParseItems(st, cs).1.None? && AllComplete(cs)
    ensures forall id :: id in st.channels && id !in IdsOf(cs) ==>
      id in ParseItems(st, cs).0.channels && ParseItems(st, cs).0.channels[id] == st.channels[id]
    decreases |cs|
  {
    if cs != [] {
      ChannelStepChannels(st, cs[0]);
      var mid := ChannelStep(st, cs[0]).0;
      IdsOfCons(cs);
      ParsedChannelsUntouched(mid, cs[1..]);
    }
  }

  /**
   * The last channel object with a given id decides its metadata
   * (`self.channels[channel_id] = ...` overwrites what an earlier object stored).
   */
  lemma {:induction false} ParsedChannelsLastWins(st: Parsed, cs: seq<Channel>)
    requires WellParsed(st) && ParseItems(st, cs).1.None? && AllComplete(cs)
    ensures forall k :: 0 <= k < |cs| && IdsOf(cs)[k] !in IdsOf(cs)[k + 1..] ==>
      IdsOf(cs)[k] in ParseItems(st, cs).0.channels && ParseItems(st, cs).0.channels[IdsOf(cs)[k]] == Info(cs[k])
    decreases |cs|
  {
    if cs != [] {
      ChannelStepChannels(st, cs[0]);
      var mid := ChannelStep(st, cs[0]).0;
      IdsOfCons(cs);
      ParsedChannelsUntouched(mid, cs[1..]);
      ParsedChannelsLastWins(mid, cs[1..]);
      LastWinsCons(cs, cs[1..], IdsOf(cs), IdsOf(cs[1..]), mid.channels, ParseItems(mid, cs[1..]).0.channels);
    }
  }

  /** The last-wins property of a whole document from that of its tail and the first object's store. */
  lemma LastWinsCons(cs: seq<Channel>, tail: seq<Channel>, ids: seq<string>, rest: seq<string>,
                     mid: map<string, ChannelInfo>, out: map<string, ChannelInfo>)
    requires cs != [] && AllComplete(cs) && tail == cs[1..] && |rest| == |tail| && ids == [ChannelId(cs[0])] + rest
    requires ids[0] in mid && mid[ids[0]] == Info(cs[0])
    requires forall id :: id in mid && id !in rest ==> id in out && out[id] == mid[id]
    requires forall k :: 0 <= k < |rest| && rest[k] !in rest[k + 1..] ==>
      rest[k] in out && out[rest[k]] == Info(tail[k])
    ensures forall k :: 0 <= k < |ids| && ids[k] !in ids[k + 1..] ==>
      ids[k] in out && out[ids[k]] == Info(cs[k])
  {
    forall k | 0 <= k < |ids| && ids[k] !in ids[k + 1..] ensures ids[k] in out && out[ids[k]] == Info(cs[k]) {
      DropOfCons(ChannelId(cs[0]), rest, k);
      if k > 0 {
        var j: nat := k - 1;
        assert rest[j] !in rest[j + 1..] && cs[k] == tail[j];
      }
    }
  }

  /** Indexing and dropping past the head of `[x] + rest` land in `rest`. */
  lemma DropOfCons<T>(x: T, rest: seq<T>, k: nat)
    requires k <= |rest|
    ensures ([x] + rest)[k + 1..] == rest[k..]
    ensures k > 0 ==> ([x] + rest)[k] == rest[k - 1]
  {
  }

  // ---------------------------------------------------------------------
  // Rendering: what `generate_xmltv` writes
  // ---------------------------------------------------------------------

  /** The tags of a list of elements, in order. */
  function Tags(es: seq<Element>): (ts: seq<string>)
    ensures |ts| == |es| && forall i :: 0 <= i < |es| ==> ts[i] == es[i].tag
  {
    seq(|es|, i requires 0 <= i < |es| => es[i].tag)
  }

  /**
   * A `<programme>` carries its title first, then a category exactly when
   * the programme has a type, an icon exactly when it has an image and a
   * `<new/>` marker exactly when it is new.
   */
  lemma ProgrammeChildren(p: Programme)
    requires ValidProgramme(p)
    ensures var e := ProgrammeElement(p);
      && e.tag == "programme" && e.children[0] == Element("title", [], p.title, [])
      && ("category" in Tags(e.children) <==> p.kind != "")
      && ("icon" in Tags(e.children) <==> p.imageUrl != "")
      && ("new" in Tags(e.children) <==> p.isNew)
  {
    var e := ProgrammeElement(p);
    ProgrammeChildTags(p.title, p.kind, p.imageUrl, p.isNew, e.children);
    OptionalTagsPresent(p.kind != "", p.imageUrl != "", p.isNew, Tags(e.children));
  }

  lemma ProgrammeChildTags(title: string, kind: string, imageUrl: string, isNew: bool, cs: seq<Element>)
    requires cs == [Element("title", [], title, [])]
      + (if kind != "" then [Element("category", [], kind, [])] else [])
      + (if imageUrl != "" then [Element("icon", [("src", imageUrl)], "", [])] else [])
      + (if isNew then [Element("new", [], "", [])] else [])
    ensures Tags(cs) == ["title"] + (if kind != "" then ["category"] else [])
      + (if imageUrl != "" then ["icon"] else []) + (if isNew then ["new"] else [])
  {
  }

  /** Each optional child's tag is present exactly when the child is. */
  lemma OptionalTagsPresent(hasKind: bool, hasImage: bool, isNew: bool, ts: seq<string>)
    requires ts == ["title"] + (if hasKind then ["category"] else [])
      + (if hasImage then ["icon"] else []) + (if isNew then ["new"] else [])
    ensures ("category" in ts <==> hasKind) && ("icon" in ts <==> hasImage) && ("new" in ts <==> isNew)
  {
  }

  /** A `<channel>` carries its display name, then an icon exactly when the channel has a logo. */
  lemma ChannelChildren(id: string, info: ChannelInfo)
    ensures var e := ChannelElement(id, info);
      && e.tag == "channel" && e.attrs == [("id", id)]
      && e.children[0] == Element("display-name", [], info.title, [])
      && ("icon" in Tags(e.children) <==> info.logoUrl != "")
  {
    var e := ChannelElement(id, info);
    assert Tags(e.children) == ["display-name"] + (if info.logoUrl != "" then ["icon"] else []);
  }

  /**
   * The document of a well-parsed state: one `<channel>` per stored id, in
   * insertion order and without repeats, then one `<programme>` per parsed
   * programme, each naming a channel that was written.
   */
  lemma RenderedDocument(st: Parsed, date: string)
    requires WellParsed(st)
    ensures Writable(st)
    ensures var kids := Render(st, date).children;
      && |kids| == |st.ids| + |st.programmes|
      && (forall i :: 0 <= i < |st.ids| ==> kids[i] == ChannelElement(st.ids[i], st.channels[st.ids[i]]))
      && (forall i, k :: 0 <= i < k < |st.ids| ==> kids[i].attrs != kids[k].attrs)
      && (forall id :: id in st.channels ==> id in st.ids)
      && (forall j :: 0 <= j < |st.programmes| ==>
            ProgrammeElement(st.programmes[j]) == kids[|st.ids| + j] && st.programmes[j].channel in st.ids)
  {
    var kids := Render(st, date).children;
    forall i, k | 0 <= i < k < |st.ids| ensures kids[i].attrs != kids[k].attrs {
      assert kids[i].attrs == [("id", st.ids[i])] && kids[k].attrs == [("id", st.ids[k])];
    }
  }

  /**
   * A whole run from an empty converter: after a successful `parse_json`
   * the document lists the object ids in order of first appearance and one
   * programme per schedule, in document order.
   */
  lemma ConvertDocument(cs: seq<Channel>, date: string)
    requires ParseItems(Parsed([], map[], []), cs).1.None?
    ensures var out := ParseItems(Parsed([], map[], []), cs).0;
      && WellParsed(out) && AllComplete(cs) && AllSucceed(DocOutcomes(cs))
      && out.ids == Merge.Dedup(IdsOf(cs))
      && out.programmes == Values(DocOutcomes(cs))
      && Render(out, date).children == ChannelElements(out) + ProgrammeElements(Values(DocOutcomes(cs)))
  {
    var st := Parsed([], map[], []);
    ParseKeepsWellParsed(st, cs);
    ParsedAllComplete(st, cs);
    ParsedChannelOrder(st, cs);
    ParsedProgrammes(st, cs);
    assert st.ids + IdsOf(cs) == IdsOf(cs);
    assert st.programmes + Values(DocOutcomes(cs)) == Values(DocOutcomes(cs));
  }

  // ---------------------------------------------------------------------
  // The root `date` stamp
  // ---------------------------------------------------------------------

  /** In a zone one hour east of UTC (13:00 on 2025-06-15 at +01:00, say), the stamp names an instant one hour late. */
  lemma LocalStampHourLate(localNow: DateTime)
    requires ValidDateTime(localNow) && InPythonRange(localNow.date) && localNow.offset == Some(60)
    ensures ParseXmltvTime(LocalStamp(localNow)).Some?
    ensures UtcSeconds(ParseXmltvTime(LocalStamp(localNow)).value) == UtcSeconds(localNow) + 3600
  {
  }

}
