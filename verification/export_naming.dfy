/** The pure helpers of the report export page: the campaign label, the
    report catalogue, the date-range texts and the PDF file name. */
module ExportNaming {
  import opened Wrappers

  // ---------------------------------------------------------------------
  // Campaign label

  datatype Campaign = Campaign(id: string, name: string)

  const AllCampaignsId: string := "all"
  const AllCampaignsLabel: string := "Todas Campanhas"
  const UnknownCampaignLabel: string := "Campanha Específica"

  /** `campaigns.find(c => c.id === id)`, as the index of the first match. */
  function FindById(campaigns: seq<Campaign>, id: string): (r: Option<nat>)
    ensures r.Some? ==> r.value < |campaigns| && campaigns[r.value].id == id
    ensures r.Some? ==> forall j :: 0 <= j < r.value ==> campaigns[j].id != id
    ensures r.None? ==> forall j :: 0 <= j < |campaigns| ==> campaigns[j].id != id
  {
    if campaigns == [] then None
    else if campaigns[0].id == id then Some(0)
    else match FindById(campaigns[1..], id)
      case None => None
      case Some(k) => Some(k + 1)
  }

  /** The label printed in the report header: every campaign for `'all'`,
      otherwise the name of the first campaign with the selected id; an
      unknown id, or a first match with an empty name, gives the generic
      label. */
  function CampaignName(selected: string, campaigns: seq<Campaign>): (name: string)
    ensures name != ""
    ensures selected == AllCampaignsId ==> name == AllCampaignsLabel
    ensures selected != AllCampaignsId ==>
      var found := FindById(campaigns, selected);
      name == if found.Some? && campaigns[found.value].name != "" then campaigns[found.value].name
              else UnknownCampaignLabel
  {
    if selected == AllCampaignsId then AllCampaignsLabel
    else match FindById(campaigns, selected)
      case Some(k) => if campaigns[k].name != "" then campaigns[k].name else UnknownCampaignLabel
      case None => UnknownCampaignLabel
  }

  /** Only the first campaign with the selected id is consulted: when its
      name is empty the generic label is used even if a later campaign with
      the same id has a name. */
  lemma FirstMatchDecides(selected: string, before: seq<Campaign>, first: Campaign, after: seq<Campaign>)
    requires selected != AllCampaignsId && first.id == selected
    requires forall j :: 0 <= j < |before| ==> before[j].id != selected
    ensures CampaignName(selected, before + [first] + after)
              == if first.name != "" then first.name else UnknownCampaignLabel
  {
    var cs := before + [first] + after;
    var found := FindById(cs, selected);
    assert cs[|before|] == first;
    assert found.Some? && found.value == |before|;
  }

  // ---------------------------------------------------------------------
  // Report catalogue

  datatype ReportType = Campaigns | Budget | Metrics | Funnel | Ltv | General

  /** The key the page uses for each report. */
  function Key(rt: ReportType): string {
    match rt
    case Campaigns => "campaigns"
    case Budget => "budget"
    case Metrics => "metrics"
    case Funnel => "funnel"
    case Ltv => "ltv"
    case General => "general"
  }

  /** The report a key names, if any. */
  function ParseReportType(key: string): (r: Option<ReportType>)
    ensures r.Some? ==> Key(r.value) == key
    ensures r.None? ==> forall rt: ReportType :: Key(rt) != key
  {
    if key == "campaigns" then Some(Campaigns)
    else if key == "budget" then Some(Budget)
    else if key == "metrics" then Some(Metrics)
    else if key == "funnel" then Some(Funnel)
    else if key == "ltv" then Some(Ltv)
    else if key == "general" then Some(General)
    else None
  }

  /** Keys and report types are in one-to-one correspondence. */
  lemma KeyRoundTrip(rt: ReportType)
    ensures ParseReportType(Key(rt)) == Some(rt)
  {
  }

  function Title(rt: ReportType): string {
    match rt
    case Campaigns => "Rel. Campanhas"
    case Budget => "Rel. Orçamento"
    case Metrics => "Rel. Métricas"
    case Funnel => "Rel. Funil"
    case Ltv => "Rel. LTV"
    case General => "Rel. Geral"
  }

  /** The title used for a report key; an unknown key makes the page throw
      with this message. */
  function TitleFor(key: string): (r: Result<string, string>)
    ensures r.Success? <==> ParseReportType(key).Some?
    ensures r.Success? ==> r.value == Title(ParseReportType(key).value)
    ensures r.Failure? ==> r.error == "Tipo inválido: " + key
  {
    match ParseReportType(key)
    case Some(rt) => Success(Title(rt))
    case None => Failure("Tipo inválido: " + key)
  }

  /** Distinct reports have distinct titles. */
  lemma TitlesAreDistinct(a: ReportType, b: ReportType)
    requires a != b
    ensures Title(a) != Title(b)
  {
  }

  /** `['budget', 'metrics', 'funnel', 'ltv', 'general'].includes(key)`. */
  function RequiresBackend(key: string): (r: bool)
    ensures r <==> ParseReportType(key).Some? && ParseReportType(key).value != Campaigns
  {
    key in ["budget", "metrics", "funnel", "ltv", "general"]
  }

  // ---------------------------------------------------------------------
  // File name

  predicate IsAsciiAlnum(c: char) {
    ('a' <= c <= 'z') || ('A' <= c <= 'Z') || ('0' <= c <= '9')
  }

  /** A character matched by `\s` in a JavaScript regular expression. */
  predicate IsJsSpace(c: char) {
    || c == ' ' || c == '\t' || c == '\n' || c == '\r'
    || c == '\U{000B}' || c == '\U{000C}' || c == '\U{00A0}' || c == '\U{1680}'
    || ('\U{2000}' <= c <= '\U{200A}')
    || c == '\U{2028}' || c == '\U{2029}' || c == '\U{202F}' || c == '\U{205F}'
    || c == '\U{3000}' || c == '\U{FEFF}'
  }

  predicate NoSpaces(s: string) {
    forall i :: 0 <= i < |s| ==> !IsJsSpace(s[i])
  }

  /** `campaignName.replace(/[^a-zA-Z0-9]/g, '_')`. */
  function SafeName(s: string): (r: string)
    ensures |r| == |s|
    ensures forall i :: 0 <= i < |s| ==> r[i] == if IsAsciiAlnum(s[i]) then s[i] else '_'
  {
    if s == [] then []
    else [if IsAsciiAlnum(s[0]) then s[0] else '_'] + SafeName(s[1..])
  }

  /** A sanitised name is left unchanged by sanitising again. */
  lemma SafeNameIdempotent(s: string)
    ensures SafeName(SafeName(s)) == SafeName(s)
  {
  }

  /** `s` without its leading whitespace. */
  function DropSpaces(s: string): (r: string)
    ensures |r| <= |s| && r == s[|s| - |r|..]
    ensures forall i :: 0 <= i < |s| - |r| ==> IsJsSpace(s[i])
    ensures r == [] || !IsJsSpace(r[0])
  {
    if s != [] && IsJsSpace(s[0]) then DropSpaces(s[1..]) else s
  }

  /** `title.replace(/\s+/g, '_')`: every maximal run of whitespace becomes
      one underscore. */
  function FinalTitle(s: string): (r: string)
    ensures NoSpaces(r)
    ensures |r| <= |s|
    ensures NoSpaces(s) ==> r == s
    decreases |s|
  {
    if s == [] then []
    else if IsJsSpace(s[0]) then "_" + FinalTitle(DropSpaces(s))
    else [s[0]] + FinalTitle(s[1..])
  }

  /** A maximal run of whitespace at the front becomes a single underscore. */
  lemma {:induction false} FinalTitleCollapsesRun(run: string, rest: string)
    requires |run| > 0 && forall i :: 0 <= i < |run| ==> IsJsSpace(run[i])
    requires rest == [] || !IsJsSpace(rest[0])
    ensures FinalTitle(run + rest) == "_" + FinalTitle(rest)
  {
    DropSpacesOfRun(run, rest);
  }

  lemma {:induction false} DropSpacesOfRun(run: string, rest: string)
    requires forall i :: 0 <= i < |run| ==> IsJsSpace(run[i])
    requires rest == [] || !IsJsSpace(rest[0])
    ensures DropSpaces(run + rest) == rest
  {
    if run == [] {
      assert run + rest == rest;
    } else {
      assert (run + rest)[1..] == run[1..] + rest;
      DropSpacesOfRun(run[1..], rest);
    }
  }

  /** A non-space character is kept in place. */
  lemma FinalTitleKeepsWordChar(c: char, rest: string)
    requires !IsJsSpace(c)
    ensures FinalTitle([c] + rest) == [c] + FinalTitle(rest)
  {
    assert ([c] + rest)[1..] == rest;
  }

  /** Collapsing twice changes nothing more. */
  lemma FinalTitleIdempotent(s: string)
    ensures FinalTitle(FinalTitle(s)) == FinalTitle(s)
  {
  }

  lemma NoSpacesConcat(a: string, b: string)
    requires NoSpaces(a) && NoSpaces(b)
    ensures NoSpaces(a + b)
  {
    assert forall i :: |a| <= i < |a + b| ==> (a + b)[i] == b[i - |a|];
  }

  lemma SafeNameHasNoSpaces(s: string)
    ensures NoSpaces(SafeName(s))
  {
    var n := SafeName(s);
    forall i | 0 <= i < |n| ensures !IsJsSpace(n[i]) {
      assert n[i] == '_' || IsAsciiAlnum(n[i]);
    }
  }

  lemma HeadHasNoSpaces(title: string, campaignName: string)
    ensures NoSpaces(FinalTitle(title) + "_" + SafeName(campaignName))
  {
    SafeNameHasNoSpaces(campaignName);
    NoSpacesConcat(FinalTitle(title), "_");
    NoSpacesConcat(FinalTitle(title) + "_", SafeName(campaignName));
  }

  lemma TailHasNoSpaces(start: string, end: string)
    ensures NoSpaces(start) && NoSpaces(end) ==> NoSpaces("_" + start + "_a_" + end + ".pdf")
  {
    if NoSpaces(start) && NoSpaces(end) {
      NoSpacesConcat("_", start);
      NoSpacesConcat("_" + start, "_a_");
      NoSpacesConcat("_" + start + "_a_", end);
      NoSpacesConcat("_" + start + "_a_" + end, ".pdf");
    }
  }

  /** The name ends with the `.pdf` extension. */
  predicate EndsWithPdf(f: string) {
    |f| >= 4 && f[|f| - 4..] == ".pdf"
  }

  /** `${finalTitle}_${safeName}_${start}_a_${end}.pdf`. */
  function FileName(title: string, campaignName: string, start: string, end: string): (f: string)
    ensures EndsWithPdf(f)
    ensures var p := FinalTitle(title) + "_"; |p| <= |f| && f[..|p|] == p
    ensures var k := |FinalTitle(title)| + 1;
      k + |campaignName| <= |f| && f[k..k + |campaignName|] == SafeName(campaignName)
    ensures var k := |FinalTitle(title)| + 1 + |campaignName|;
      k <= |f| && f[k..] == "_" + start + "_a_" + end + ".pdf"
    ensures NoSpaces(start) && NoSpaces(end) ==> NoSpaces(f)
  {
    var head := FinalTitle(title) + "_" + SafeName(campaignName);
    var tail := "_" + start + "_a_" + end + ".pdf";
    assert head[..|FinalTitle(title)| + 1] == FinalTitle(title) + "_";
    assert head[|FinalTitle(title)| + 1..] == SafeName(campaignName);
    assert (head + tail)[|head|..] == tail;
    HeadHasNoSpaces(title, campaignName);
    TailHasNoSpaces(start, end);
    if NoSpaces(tail) then NoSpacesConcat(head, tail); head + tail else head + tail
  }

  // ---------------------------------------------------------------------
  // Date range

  /** A JavaScript `Date` as a day ordinal and a validity flag (an
      `Invalid Date` has `valid == false`). */
  datatype CalendarDay = CalendarDay(ordinal: int, valid: bool)

  /** The picker's selection; either end may be unset. */
  datatype DateRange = DateRange(from: Option<CalendarDay>, to: Option<CalendarDay>)

  /** A `date-fns` format applied to a day. */
  type Formatter = int -> string

  predicate FromValid(range: Option<DateRange>) {
    range.Some? && range.value.from.Some? && range.value.from.value.valid
  }

  predicate BothValid(range: Option<DateRange>) {
    FromValid(range) && range.value.to.Some? && range.value.to.value.valid
  }

  /** The API dates of the selection, when both ends are set and valid. */
  function FormattedRange(range: Option<DateRange>, format: Formatter): (r: Option<(string, string)>)
    ensures r.Some? <==> BothValid(range)
    ensures r.Some? ==>
      r.value == (format(range.value.from.value.ordinal), format(range.value.to.value.ordinal))
  {
    if BothValid(range) then
      Some((format(range.value.from.value.ordinal), format(range.value.to.value.ordinal)))
    else None
  }

  /** The text that describes the selection on the page and in the header. */
  function DisplayRange(range: Option<DateRange>, format: Formatter): (r: string)
    ensures BothValid(range) ==>
      r == "Per: " + format(range.value.from.value.ordinal) + " a " + format(range.value.to.value.ordinal)
    ensures !BothValid(range) && FromValid(range) ==>
      r == "Data: " + format(range.value.from.value.ordinal)
    ensures !FromValid(range) ==> r == "Selec. período"
  {
    if BothValid(range) then
      "Per: " + format(range.value.from.value.ordinal) + " a " + format(range.value.to.value.ordinal)
    else if FromValid(range) then
      "Data: " + format(range.value.from.value.ordinal)
    else
      "Selec. período"
  }

  /** The page header shows a period ("Per: ...") exactly when the range
      yields the two dates a file name is built from, and then both texts
      name the same two days. */
  lemma {:induction false} HeaderAgreesWithFileDates(range: Option<DateRange>, apiFormat: Formatter,
                                                     displayFormat: Formatter)
    ensures var d := DisplayRange(range, displayFormat);
      (|d| >= 5 && d[..5] == "Per: ") <==> FormattedRange(range, apiFormat).Some?
    ensures FormattedRange(range, apiFormat).Some? ==>
      var from := range.value.from.value.ordinal;
      var to := range.value.to.value.ordinal;
      && FormattedRange(range, apiFormat).value == (apiFormat(from), apiFormat(to))
      && DisplayRange(range, displayFormat) == "Per: " + displayFormat(from) + " a " + displayFormat(to)
  {
    var d := DisplayRange(range, displayFormat);
    if BothValid(range) {
      assert d[..5] == "Per: ";
    } else if FromValid(range) {
      assert d[0] == 'D';
    } else {
      assert d[0] == 'S';
    }
  }

  // ---------------------------------------------------------------------
  // Which file an export saves

  /** The name the report of `key` is saved under: the report's file name
      for a known key, `ERRO_<key>.pdf` for an unknown one. */
  function ReportFileName(key: string, campaignName: string, start: string, end: string): (f: string)
    ensures EndsWithPdf(f)
    ensures ParseReportType(key).None? ==> f == "ERRO_" + key + ".pdf"
    ensures ParseReportType(key).Some? ==> f == FileName(Title(ParseReportType(key).value), campaignName, start, end)
  {
    match TitleFor(key)
    case Failure(_) =>
      var f := "ERRO_" + key + ".pdf";
      assert f[|f| - 4..] == ".pdf";
      assert EndsWithPdf(f);
      f
    case Success(title) => FileName(title, campaignName, start, end)
  }

  /** How a click on an export button ends, when drawing succeeds: a missing
      end of the range stops with a notice, an invalid end stops with a date
      error, an unknown report key saves an error document, and otherwise
      the report is saved under its file name. */
  datatype ExportResult = NeedsSelection | DateError | Saved(fileName: string)

  function Export(key: string, range: Option<DateRange>, selected: string, campaigns: seq<Campaign>,
                  apiFormat: Formatter): (r: ExportResult)
    ensures r == NeedsSelection <==> !(range.Some? && range.value.from.Some? && range.value.to.Some?)
    ensures r == DateError <==>
      range.Some? && range.value.from.Some? && range.value.to.Some? && !BothValid(range)
    ensures r.Saved? ==> BothValid(range) && EndsWithPdf(r.fileName)
    ensures r.Saved? && ParseReportType(key).None? ==> r.fileName == "ERRO_" + key + ".pdf"
    ensures r.Saved? && ParseReportType(key).Some? ==>
      r.fileName == FileName(Title(ParseReportType(key).value), CampaignName(selected, campaigns),
                             apiFormat(range.value.from.value.ordinal), apiFormat(range.value.to.value.ordinal))
  {
    if !(range.Some? && range.value.from.Some? && range.value.to.Some?) then NeedsSelection
    else match FormattedRange(range, apiFormat)
      case None => DateError
      case Some(dates) => Saved(ReportFileName(key, CampaignName(selected, campaigns), dates.0, dates.1))
  }
}
