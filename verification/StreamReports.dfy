/**
 What the reports of backend/stream_parser.py add up to. A client keeps one text for every section
 and applies each report to it: an appending report is added at the end, any other replaces it.
 */
module StreamReports {
  import opened Common
  import opened StreamParser

  // ---------------------------------------------------------------------------------
  // The client
  // ---------------------------------------------------------------------------------

  /** What the client holds for a section after a trace, having held `was` before. */
  function Cached(trace: seq<Event>, section: string, was: string): string {
    if trace == [] then was
    else
      var (before, e) := (Cached(trace[..|trace| - 1], section, was), trace[|trace| - 1]);
      if !e.Report? || e.section != section then before else if e.append then before + e.content else e.content
  }

  /** The same for the actions of a script. */
  function Applied(script: seq<Action>, section: string, was: string): string {
    if script == [] then was
    else Apply(script[|script| - 1], section, Applied(script[..|script| - 1], section, was))
  }

  function Apply(a: Action, section: string, was: string): string {
    if !a.Show? || a.section != section then was else if a.append then was + a.content else a.content
  }

  lemma {:induction false} CachedConcat(a: seq<Event>, b: seq<Event>, section: string, was: string)
    ensures Cached(a + b, section, was) == Cached(b, section, Cached(a, section, was))
  {
    if b == [] {
      assert a + b == a;
    } else {
      CachedConcat(a, b[..|b| - 1], section, was);
      assert (a + b)[..|a + b| - 1] == a + b[..|b| - 1];
    }
  }

  lemma {:induction false} AppliedConcat(a: seq<Action>, b: seq<Action>, section: string, was: string)
    ensures Applied(a + b, section, was) == Applied(b, section, Applied(a, section, was))
  {
    hide Apply;
    if b == [] {
      assert a + b == a;
    } else {
      AppliedConcat(a, b[..|b| - 1], section, was);
      assert (a + b)[..|a + b| - 1] == a + b[..|b| - 1];
    }
  }

  lemma AppliedOne(a: Action, section: string, was: string)
    ensures Applied([], section, was) == was && Applied([a], section, was) == Apply(a, section, was)
  {
    assert [a][..0] == [];
  }

  lemma {:induction false} NoReportNoChange(trace: seq<Event>, section: string, was: string)
    requires forall i :: 0 <= i < |trace| ==> !trace[i].Report?
    ensures Cached(trace, section, was) == was
  {
    if trace != [] {
      NoReportNoChange(trace[..|trace| - 1], section, was);
    }
  }

  lemma DoIsCached(seen: set<Agent>, a: Action, section: string, was: string)
    ensures Cached(Do(seen, a).1, section, was) == Apply(a, section, was)
  {
    var events := Do(seen, a).1;
    if a.Show? {
      assert events[..0] == [];
    } else {
      NoReportNoChange(events, section, was);
    }
  }

  lemma {:induction false} PlayIsCached(seen: set<Agent>, script: seq<Action>, section: string, was: string)
    ensures Cached(Play(seen, script).1, section, was) == Applied(script, section, was)
  {
    hide Do, Apply;
    if script != [] {
      var n := |script| - 1;
      var (before, events) := Play(seen, script[..n]);
      PlayIsCached(seen, script[..n], section, was);
      DoIsCached(before, script[n], section, Cached(events, section, was));
      CachedConcat(events, Do(before, script[n]).1, section, was);
    }
  }

  lemma ParseIsCached(st: State, c: Chunk, section: string, was: string)
    ensures Cached(Parse(st, c).1, section, was) == Applied(Script(st.mode, st.memory, c), section, was)
    ensures Parse(st, c).0.mode == st.mode && Parse(st, c).0.memory == Remember(st.mode, st.memory, c)
  {
    hide Cached, Script, Remember, Play, MessageEvents, Advance;
    var ms := NewMessages(st.memory.count, c.messages);
    var quiet := Headline(ms) + MessageEvents(ms, st.next);
    var played := Play(st.seen, Script(st.mode, st.memory, c)).1;
    MessageEventsAreSpoken(ms, st.next);
    NoReportNoChange(quiet, section, was);
    CachedConcat(quiet, played, section, was);
    PlayIsCached(st.seen, Script(st.mode, st.memory, c), section, was);
  }

  /** One more chunk of a run. */
  lemma RunIsCached(mode: Mode, next: Option<nat>, chunks: seq<Chunk>, section: string)
    requires chunks != [] && ParseAll(Initial(mode, next), chunks[..|chunks| - 1]).0.mode == mode
    ensures var (st, trace) := ParseAll(Initial(mode, next), chunks[..|chunks| - 1]);
            var (st', trace') := ParseAll(Initial(mode, next), chunks);
            var c := chunks[|chunks| - 1];
            && st'.mode == mode && st'.memory == Remember(mode, st.memory, c)
            && Cached(trace', section, "") == Applied(Script(mode, st.memory, c), section, Cached(trace, section, ""))
  {
    hide Parse, Cached, Script, Remember;
    var (st, trace) := ParseAll(Initial(mode, next), chunks[..|chunks| - 1]);
    var c := chunks[|chunks| - 1];
    CachedConcat(trace, Parse(st, c).1, section, "");
    ParseIsCached(st, c, section, Cached(trace, section, ""));
  }

  lemma NoChunks(mode: Mode, next: Option<nat>, section: string)
    ensures ParseAll(Initial(mode, next), []) == (Initial(mode, next), []) && Cached([], section, "") == ""
  {
  }

  // ---------------------------------------------------------------------------------
  // Which branch shows which section
  // ---------------------------------------------------------------------------------

  datatype Branch =
    | Analysts | DebateBranch | TraderBranch | ComplianceBranch | RiskManagerBranch
    | ConfluenceBranch | RiskBranch | PortfolioBranch | FinalBranch | ExecutionBranch

  /** The branch a section belongs to. `portfolio_manager` is shown by the risk debate's branch and
      by the decision's, `final_decision` by the latter. */
  function BranchOf(section: string): Branch {
    match section
    case "research_bull" => DebateBranch
    case "research_bear" => DebateBranch
    case "research_manager" => DebateBranch
    case "trader" => TraderBranch
    case "compliance" => ComplianceBranch
    case "risk_manager" => RiskManagerBranch
    case "confluence" => ConfluenceBranch
    case "risk_aggressive" => RiskBranch
    case "risk_conservative" => RiskBranch
    case "risk_neutral" => RiskBranch
    case "portfolio_manager" => PortfolioBranch
    case "final_decision" => FinalBranch
    case "execution_monitor" => ExecutionBranch
    case _ => Analysts
  }

  predicate ShowsOnly(script: seq<Action>, branches: set<Branch>) {
    forall i :: 0 <= i < |script| && script[i].Show? ==> BranchOf(script[i].section) in branches
  }

  lemma {:induction false} OthersStay(script: seq<Action>, branches: set<Branch>, section: string, was: string)
    requires ShowsOnly(script, branches) && BranchOf(section) !in branches
    ensures Applied(script, section, was) == was
  {
    hide BranchOf;
    if script != [] {
      OthersStay(script[..|script| - 1], branches, section, was);
    }
  }

  lemma {:induction false} ReportsShow(fields: seq<Field>, chunk: map<string, string>, prev: map<string, string>)
    requires forall i :: 0 <= i < |fields| ==> BranchOf(fields[i].1) == Analysts
    ensures ShowsOnly(ReportScript(fields, chunk, prev), {Analysts})
  {
    hide NewReport, Strip, Get, LatestReports, BranchOf;
    if fields != [] {
      ReportsShow(fields[..|fields| - 1], chunk, prev);
    }
  }

  lemma {:induction false} FieldsShow(fields: seq<Field>, d: Option<Debate>, prev: Option<Debate>, branch: Branch)
    requires forall i :: 0 <= i < |fields| ==> BranchOf(fields[i].1) == branch
    ensures ShowsOnly(FieldScript(fields, d, prev), {branch})
  {
    hide NewIn, TextOf, BranchOf;
    if fields != [] {
      FieldsShow(fields[..|fields| - 1], d, prev, branch);
    }
  }

  lemma {:induction false} FinishAllShows(agents: seq<Agent>)
    ensures ShowsOnly(FinishAll(agents), {})
  {
    hide BranchOf;
    if agents != [] {
      FinishAllShows(agents[..|agents| - 1]);
    }
  }

  ghost predicate DistinctNames(fields: seq<Field>) {
    forall i, j :: 0 <= i < j < |fields| ==> fields[i].0 != fields[j].0
  }

  lemma AnalystFields(mode: Mode)
    ensures forall i :: 0 <= i < |ReportFields(mode)| ==> BranchOf(ReportFields(mode)[i].1) == Analysts
    ensures DistinctNames(ReportFields(mode))
  {
  }

  lemma DebateFields()
    ensures forall i :: 0 <= i < |DEBATE_FIELDS| ==> BranchOf(DEBATE_FIELDS[i].1) == DebateBranch
    ensures forall i :: 0 <= i < |RISK_FIELDS| ==> BranchOf(RISK_FIELDS[i].1) == RiskBranch
  {
  }

  lemma SectionNames()
    ensures BranchOf("trader") == TraderBranch && BranchOf("compliance") == ComplianceBranch
    ensures BranchOf("risk_manager") == RiskManagerBranch && BranchOf("confluence") == ConfluenceBranch
    ensures BranchOf("portfolio_manager") == PortfolioBranch && BranchOf("final_decision") == FinalBranch
    ensures BranchOf("execution_monitor") == ExecutionBranch
  {
  }

  lemma DebateShows(d: Option<Debate>, prev: Option<Debate>)
    ensures ShowsOnly(DebateScript(d, prev), {DebateBranch})
  {
    hide FieldScript, NewIn, BranchOf;
    DebateFields();
    FieldsShow(DEBATE_FIELDS, d, prev, DebateBranch);
  }

  lemma RiskShows(mode: Mode, d: Option<Debate>, prev: Option<Debate>)
    ensures ShowsOnly(RiskScript(mode, d, prev), {RiskBranch, PortfolioBranch})
  {
    hide FieldScript, FinishAll, NewIn, TextOf, BranchOf;
    DebateFields();
    SectionNames();
    FieldsShow(RISK_FIELDS, d, prev, RiskBranch);
    FinishAllShows(RISK_AGENTS);
  }

  lemma OthersShow(mode: Mode, m: Memory, c: Chunk)
    ensures ShowsOnly(TraderScript(mode, Normalize(c.trader), m.trader), {TraderBranch})
    ensures ShowsOnly(ResultScript("Compliance Officer", "compliance", c.compliance, m.compliance), {ComplianceBranch})
    ensures ShowsOnly(ResultScript("Risk Manager", "risk_manager", c.riskManager, m.riskManager), {RiskManagerBranch})
    ensures ShowsOnly(ConfluenceScript(c.confluence, m.confluence), {ConfluenceBranch})
    ensures ShowsOnly(DecisionScript(mode, c, m.decision), {PortfolioBranch, FinalBranch})
    ensures ShowsOnly(ResultScript("Execution Monitor", "execution_monitor", c.executionNotes, m.executionNotes),
                      {ExecutionBranch})
  {
    hide BranchOf, Normalize, NewText, Strip;
    SectionNames();
  }

  // ---------------------------------------------------------------------------------
  // A section is changed by its own branch only
  // ---------------------------------------------------------------------------------

  lemma EarlyApplied(mode: Mode, m: Memory, c: Chunk, s: string, was: string)
    ensures var after := Applied(EarlyScript(mode, m, c), s, was);
            match BranchOf(s)
            case Analysts => after == Applied(ReportScript(ReportFields(mode), c.reports, m.reports), s, was)
            case DebateBranch => after == Applied(DebateScript(c.debate, m.debate), s, was)
            case TraderBranch => after == Applied(TraderScript(mode, Normalize(c.trader), m.trader), s, was)
            case ComplianceBranch =>
              after == Applied(ResultScript("Compliance Officer", "compliance", c.compliance, m.compliance), s, was)
            case RiskManagerBranch =>
              after == Applied(ResultScript("Risk Manager", "risk_manager", c.riskManager, m.riskManager), s, was)
            case _ => after == was
  {
    hide Applied, ReportScript, DebateScript, TraderScript, ResultScript, Normalize, ReportFields, BranchOf, ShowsOnly;
    var r := ReportScript(ReportFields(mode), c.reports, m.reports);
    var d := DebateScript(c.debate, m.debate);
    var t := TraderScript(mode, Normalize(c.trader), m.trader);
    var o := ResultScript("Compliance Officer", "compliance", c.compliance, m.compliance);
    var k := ResultScript("Risk Manager", "risk_manager", c.riskManager, m.riskManager);
    AnalystFields(mode);
    ReportsShow(ReportFields(mode), c.reports, m.reports);
    DebateShows(c.debate, m.debate);
    OthersShow(mode, m, c);
    FiveApplied(r, d, t, o, k, s, was);
    var b := BranchOf(s);
    if b != Analysts { OthersStay(r, {Analysts}, s, was); }
    var v := Applied(r, s, was);
    if b != DebateBranch { OthersStay(d, {DebateBranch}, s, v); }
    v := Applied(d, s, v);
    if b != TraderBranch { OthersStay(t, {TraderBranch}, s, v); }
    v := Applied(t, s, v);
    if b != ComplianceBranch { OthersStay(o, {ComplianceBranch}, s, v); }
    v := Applied(o, s, v);
    if b != RiskManagerBranch { OthersStay(k, {RiskManagerBranch}, s, v); }
  }

  lemma FiveApplied(
    a: seq<Action>, b: seq<Action>, c: seq<Action>, d: seq<Action>, e: seq<Action>, s: string, was: string)
    ensures Applied(a + b + c + d + e, s, was)
            == Applied(e, s, Applied(d, s, Applied(c, s, Applied(b, s, Applied(a, s, was)))))
  {
    hide Applied;
    AppliedConcat(a, b, s, was);
    AppliedConcat(a + b, c, s, was);
    AppliedConcat(a + b + c, d, s, was);
    AppliedConcat(a + b + c + d, e, s, was);
  }

  lemma LateApplied(mode: Mode, m: Memory, c: Chunk, s: string, was: string)
    ensures var after := Applied(LateScript(mode, m, c), s, was);
            match BranchOf(s)
            case ConfluenceBranch => after == Applied(ConfluenceScript(c.confluence, m.confluence), s, was)
            case RiskBranch => after == Applied(RiskScript(mode, c.risk, m.risk), s, was)
            case PortfolioBranch =>
              after == Applied(DecisionScript(mode, c, m.decision), s,
                               Applied(RiskScript(mode, c.risk, m.risk), s, was))
            case FinalBranch => after == Applied(DecisionScript(mode, c, m.decision), s, was)
            case ExecutionBranch =>
              after == Applied(ResultScript("Execution Monitor", "execution_monitor", c.executionNotes,
                                            m.executionNotes), s, was)
            case _ => after == was
  {
    hide Applied, ConfluenceScript, RiskScript, DecisionScript, ResultScript, BranchOf, ShowsOnly;
    var f := ConfluenceScript(c.confluence, m.confluence);
    var r := RiskScript(mode, c.risk, m.risk);
    var d := DecisionScript(mode, c, m.decision);
    var e := ResultScript("Execution Monitor", "execution_monitor", c.executionNotes, m.executionNotes);
    RiskShows(mode, c.risk, m.risk);
    OthersShow(mode, m, c);
    FourApplied(f, r, d, e, s, was);
    var b := BranchOf(s);
    if b != ConfluenceBranch { OthersStay(f, {ConfluenceBranch}, s, was); }
    var v := Applied(f, s, was);
    if b != RiskBranch && b != PortfolioBranch { OthersStay(r, {RiskBranch, PortfolioBranch}, s, v); }
    v := Applied(r, s, v);
    if b != PortfolioBranch && b != FinalBranch { OthersStay(d, {PortfolioBranch, FinalBranch}, s, v); }
    v := Applied(d, s, v);
    if b != ExecutionBranch { OthersStay(e, {ExecutionBranch}, s, v); }
  }

  lemma FourApplied(a: seq<Action>, b: seq<Action>, c: seq<Action>, d: seq<Action>, s: string, was: string)
    ensures Applied(a + b + c + d, s, was) == Applied(d, s, Applied(c, s, Applied(b, s, Applied(a, s, was))))
  {
    hide Applied;
    AppliedConcat(a, b, s, was);
    AppliedConcat(a + b, c, s, was);
    AppliedConcat(a + b + c, d, s, was);
  }

  lemma ScriptApplied(mode: Mode, m: Memory, c: Chunk, s: string, was: string)
    ensures Applied(Script(mode, m, c), s, was)
            == Applied(LateScript(mode, m, c), s, Applied(EarlyScript(mode, m, c), s, was))
  {
    hide Applied, EarlyScript, LateScript;
    AppliedConcat(EarlyScript(mode, m, c), LateScript(mode, m, c), s, was);
  }

  // ---------------------------------------------------------------------------------
  // Analysts
  // ---------------------------------------------------------------------------------

  function ReportText(name: string, c: Chunk): string {
    Strip(Get(c.reports, name))
  }

  /** The last text any snapshot had for a report, `""` if none. */
  function LastReportText(name: string, chunks: seq<Chunk>): string {
    if chunks == [] then ""
    else
      var text := ReportText(name, chunks[|chunks| - 1]);
      if text != "" then text else LastReportText(name, chunks[..|chunks| - 1])
  }

  /** The text of the last report of these fields that shares the section and is new, if any. */
  function NewestText(fields: seq<Field>, chunk: map<string, string>, prev: map<string, string>, s: string, was: string)
    : string
  {
    if fields == [] then was
    else
      var (field, section, _) := fields[|fields| - 1];
      if section == s && NewReport(chunk, prev, field) then Strip(Get(chunk, field))
      else NewestText(fields[..|fields| - 1], chunk, prev, s, was)
  }

  lemma {:induction false} OtherFieldsStay(
    fields: seq<Field>, chunk: map<string, string>, prev: map<string, string>, name: string)
    requires forall i :: 0 <= i < |fields| ==> fields[i].0 != name
    ensures Get(LatestReports(fields, chunk, prev), name) == Get(prev, name)
  {
    hide Strip;
    if fields != [] {
      OtherFieldsStay(fields[..|fields| - 1], chunk, prev, name);
    }
  }

  lemma {:induction false} FieldRemembered(
    fields: seq<Field>, i: nat, chunk: map<string, string>, prev: map<string, string>)
    requires i < |fields| && DistinctNames(fields)
    ensures var (name, text) := (fields[i].0, Strip(Get(chunk, fields[i].0)));
            Get(LatestReports(fields, chunk, prev), name) == if text != "" then text else Get(prev, name)
    decreases |fields|
  {
    hide Strip;
    var n := |fields| - 1;
    if i == n {
      OtherFieldsStay(fields[..n], chunk, prev, fields[n].0);
    } else {
      FieldRemembered(fields[..n], i, chunk, prev);
    }
  }

  lemma {:induction false} ReportsApplied(
    fields: seq<Field>, chunk: map<string, string>, prev: map<string, string>, s: string, was: string)
    requires DistinctNames(fields)
    ensures Applied(ReportScript(fields, chunk, prev), s, was) == NewestText(fields, chunk, prev, s, was)
  {
    hide Strip, Applied;
    if fields == [] {
      NothingApplied(s, was);
    } else {
      var n := |fields| - 1;
      var (field, section, agent) := fields[n];
      var init, script := fields[..n], ReportScript(fields[..n], chunk, prev);
      var text := Strip(Get(chunk, field));
      ReportsApplied(init, chunk, prev, s, was);
      OtherFieldsStay(init, chunk, prev, field);
      if NewReport(chunk, prev, field) {
        AppliedConcat(script, [Finish(agent), Show(section, text, false)], s, was);
        CompletedAndShown(agent, section, text, s, Applied(script, s, was));
      } else {
        assert script + [] == script;
      }
    }
  }

  lemma NothingApplied(s: string, was: string)
    ensures Applied([], s, was) == was
  {
  }

  lemma CompletedAndShown(agent: Agent, section: string, text: string, s: string, was: string)
    ensures Applied([Finish(agent), Show(section, text, false)], s, was) == if section == s then text else was
  {
    var both := [Finish(agent), Show(section, text, false)];
    assert both[..1] == [Finish(agent)];
    AppliedOne(Finish(agent), s, was);
  }

  /** The last text of the reports that share a section, by when they changed. */
  function AnalystText(mode: Mode, s: string, chunks: seq<Chunk>): string {
    if chunks == [] then ""
    else
      var before := chunks[..|chunks| - 1];
      Changed(ReportFields(mode), chunks[|chunks| - 1], before, s, AnalystText(mode, s, before))
  }

  function Changed(fields: seq<Field>, c: Chunk, before: seq<Chunk>, s: string, was: string): string {
    if fields == [] then was
    else
      var (field, section, _) := fields[|fields| - 1];
      var text := ReportText(field, c);
      if section == s && text != "" && text != LastReportText(field, before) then text
      else Changed(fields[..|fields| - 1], c, before, s, was)
  }

  lemma {:induction false} NewestIsChanged(
    fields: seq<Field>, c: Chunk, prev: map<string, string>, before: seq<Chunk>, s: string, was: string)
    requires forall i :: 0 <= i < |fields| ==> Get(prev, fields[i].0) == LastReportText(fields[i].0, before)
    ensures NewestText(fields, c.reports, prev, s, was) == Changed(fields, c, before, s, was)
  {
    hide Strip, Get, LastReportText;
    if fields != [] {
      NewestIsChanged(fields[..|fields| - 1], c, prev, before, s, was);
    }
  }

  /** Over every run: what a client holds for an analyst section is the text of the report that
      changed last, of those that share it. */
  lemma {:induction false} ClientHoldsNewestReport(mode: Mode, next: Option<nat>, chunks: seq<Chunk>, s: string)
    requires BranchOf(s) == Analysts
    ensures var (st, trace) := ParseAll(Initial(mode, next), chunks);
            && st.mode == mode && Cached(trace, s, "") == AnalystText(mode, s, chunks)
            && forall i :: 0 <= i < |ReportFields(mode)| ==>
                 Get(st.memory.reports, ReportFields(mode)[i].0) == LastReportText(ReportFields(mode)[i].0, chunks)
  {
    hide ParseAll, Cached, Applied, BranchOf, ReportFields, LatestReports, ReportScript, EarlyScript, LateScript, Strip;
    if chunks == [] {
      NoChunks(mode, next, s);
    } else {
      var before, c := chunks[..|chunks| - 1], chunks[|chunks| - 1];
      var (st, trace) := ParseAll(Initial(mode, next), before);
      ClientHoldsNewestReport(mode, next, before, s);
      RunIsCached(mode, next, chunks, s);
      AnalystFields(mode);
      AnalystStep(mode, st.memory, c, s, Cached(trace, s, ""));
      NewestIsChanged(ReportFields(mode), c, st.memory.reports, before, s, Cached(trace, s, ""));
      forall i | 0 <= i < |ReportFields(mode)|
        ensures Get(LatestReports(ReportFields(mode), c.reports, st.memory.reports), ReportFields(mode)[i].0)
             == LastReportText(ReportFields(mode)[i].0, chunks)
      {
        FieldRemembered(ReportFields(mode), i, c.reports, st.memory.reports);
      }
    }
  }

  lemma AnalystStep(mode: Mode, m: Memory, c: Chunk, s: string, was: string)
    requires BranchOf(s) == Analysts
    ensures Applied(Script(mode, m, c), s, was) == NewestText(ReportFields(mode), c.reports, m.reports, s, was)
    ensures Remember(mode, m, c).reports == LatestReports(ReportFields(mode), c.reports, m.reports)
  {
    hide Applied, EarlyScript, LateScript, ReportScript, LatestReports, ReportFields, Latest, Normalize, NewDecision;
    AnalystFields(mode);
    ScriptApplied(mode, m, c, s, was);
    EarlyApplied(mode, m, c, s, was);
    LateApplied(mode, m, c, s, Applied(EarlyScript(mode, m, c), s, was));
    ReportsApplied(ReportFields(mode), c.reports, m.reports, s, was);
  }

  /** A section with one report: the client holds the last text the snapshots had for it. */
  lemma {:induction false} SoleReportIsLastText(mode: Mode, i: nat, chunks: seq<Chunk>)
    requires i < |ReportFields(mode)|
    requires forall j :: 0 <= j < |ReportFields(mode)| && j != i ==> ReportFields(mode)[j].1 != ReportFields(mode)[i].1
    ensures AnalystText(mode, ReportFields(mode)[i].1, chunks) == LastReportText(ReportFields(mode)[i].0, chunks)
  {
    hide ReportFields, Changed, Strip;
    if chunks != [] {
      var before, c := chunks[..|chunks| - 1], chunks[|chunks| - 1];
      SoleReportIsLastText(mode, i, before);
      SoleChange(ReportFields(mode), i, c, before, LastReportText(ReportFields(mode)[i].0, before));
    }
  }

  lemma {:induction false} SoleChange(fields: seq<Field>, i: nat, c: Chunk, before: seq<Chunk>, was: string)
    requires i < |fields| && forall j :: 0 <= j < |fields| && j != i ==> fields[j].1 != fields[i].1
    ensures var text := ReportText(fields[i].0, c);
            Changed(fields, c, before, fields[i].1, was)
            == if text != "" && text != LastReportText(fields[i].0, before) then text else was
    decreases |fields|
  {
    hide ReportText, LastReportText;
    var n := |fields| - 1;
    if i == n {
      ForeignChange(fields[..n], c, before, fields[n].1, was);
    } else {
      SoleChange(fields[..n], i, c, before, was);
    }
  }

  lemma {:induction false} ForeignChange(fields: seq<Field>, c: Chunk, before: seq<Chunk>, s: string, was: string)
    requires forall j :: 0 <= j < |fields| ==> fields[j].1 != s
    ensures Changed(fields, c, before, s, was) == was
  {
    hide ReportText, LastReportText;
    if fields != [] {
      ForeignChange(fields[..|fields| - 1], c, before, s, was);
    }
  }

  /** The section of report `i` has, at the client, the last text of that report. */
  lemma SectionHoldsReport(
    mode: Mode, next: Option<nat>, chunks: seq<Chunk>, i: nat, report: string, section: string)
    requires i < |ReportFields(mode)| && ReportFields(mode)[i].0 == report && ReportFields(mode)[i].1 == section
    requires forall j :: 0 <= j < |ReportFields(mode)| && j != i ==> ReportFields(mode)[j].1 != section
    ensures Cached(ParseAll(Initial(mode, next), chunks).1, section, "") == LastReportText(report, chunks)
  {
    AnalystFields(mode);
    hide Cached, ParseAll, AnalystText, LastReportText, BranchOf, ReportFields;
    ClientHoldsNewestReport(mode, next, chunks, section);
    SoleReportIsLastText(mode, i, chunks);
  }

  /** Over every run a client holds, in the section of each stock analyst, the last text of that analyst's
      report. */
  lemma StockSections(mode: Mode, next: Option<nat>, chunks: seq<Chunk>)
    requires !mode.crypto
    ensures var trace := ParseAll(Initial(mode, next), chunks).1;
            && Cached(trace, "analyst_market", "") == LastReportText("market_report", chunks)
            && Cached(trace, "analyst_social", "") == LastReportText("sentiment_report", chunks)
            && Cached(trace, "analyst_news", "") == LastReportText("news_report", chunks)
            && Cached(trace, "analyst_fundamentals", "") == LastReportText("fundamentals_report", chunks)
  {
    hide Cached, ParseAll, LastReportText;
    assert STOCK_REPORTS[0].1 == "analyst_market" && STOCK_REPORTS[1].1 == "analyst_social";
    assert STOCK_REPORTS[2].1 == "analyst_news" && STOCK_REPORTS[3].1 == "analyst_fundamentals";
    SectionHoldsReport(mode, next, chunks, 0, "market_report", "analyst_market");
    SectionHoldsReport(mode, next, chunks, 1, "sentiment_report", "analyst_social");
    SectionHoldsReport(mode, next, chunks, 2, "news_report", "analyst_news");
    SectionHoldsReport(mode, next, chunks, 3, "fundamentals_report", "analyst_fundamentals");
  }

  /** The same for the crypto analysts whose section has one report. */
  lemma CryptoSections(mode: Mode, next: Option<nat>, chunks: seq<Chunk>)
    requires mode.crypto
    ensures var trace := ParseAll(Initial(mode, next), chunks).1;
            && Cached(trace, "analyst_crypto_technical", "") == LastReportText("market_report", chunks)
            && Cached(trace, "analyst_crypto_news", "") == LastReportText("news_report", chunks)
            && Cached(trace, "analyst_crypto_fundamentals", "") == LastReportText("crypto_fundamentals_report", chunks)
            && Cached(trace, "analyst_crypto_social", "") == LastReportText("sentiment_report", chunks)
  {
    hide Cached, ParseAll, LastReportText;
    assert CRYPTO_REPORTS[0].1 == "analyst_crypto_technical" && CRYPTO_REPORTS[1].1 == "analyst_crypto_derivatives";
    assert CRYPTO_REPORTS[2].1 == "analyst_crypto_derivatives" && CRYPTO_REPORTS[3].1 == "analyst_crypto_news";
    assert CRYPTO_REPORTS[4].1 == "analyst_crypto_fundamentals" && CRYPTO_REPORTS[5].1 == "analyst_crypto_social";
    SectionHoldsReport(mode, next, chunks, 0, "market_report", "analyst_crypto_technical");
    SectionHoldsReport(mode, next, chunks, 3, "news_report", "analyst_crypto_news");
    SectionHoldsReport(mode, next, chunks, 4, "crypto_fundamentals_report", "analyst_crypto_fundamentals");
    SectionHoldsReport(mode, next, chunks, 5, "sentiment_report", "analyst_crypto_social");
  }

  const SHARED := "analyst_crypto_derivatives"

  /** The section of two crypto reports: a changed fundamentals report wins over a changed
      derivatives report of the same chunk, and either hides the other until it changes. */
  lemma SharedSection(mode: Mode, chunks: seq<Chunk>)
    requires mode.crypto && chunks != []
    ensures var (before, c) := (chunks[..|chunks| - 1], chunks[|chunks| - 1]);
            var (d, f) := (ReportText("derivatives_report", c), ReportText("fundamentals_report", c));
            AnalystText(mode, SHARED, chunks)
            == if f != "" && f != LastReportText("fundamentals_report", before) then f
               else if d != "" && d != LastReportText("derivatives_report", before) then d
               else AnalystText(mode, SHARED, before)
  {
    hide Changed, ReportText, LastReportText;
    var (before, c) := (chunks[..|chunks| - 1], chunks[|chunks| - 1]);
    var was := AnalystText(mode, SHARED, before);
    var fields := CRYPTO_REPORTS;
    SharedFields();
    ForeignChange(fields[..1], c, before, SHARED, was);
    ChangedOne(fields[..6], c, before, SHARED, was);
    ChangedOne(fields[..5], c, before, SHARED, was);
    ChangedOne(fields[..4], c, before, SHARED, was);
    ChangedOne(fields[..3], c, before, SHARED, was);
    ChangedOne(fields[..2], c, before, SHARED, was);
    assert fields[..6] == fields;
  }

  lemma SharedFields()
    ensures |CRYPTO_REPORTS| == 6
    ensures forall i :: 0 <= i < 6 ==> (CRYPTO_REPORTS[i].1 == SHARED <==> i == 1 || i == 2)
    ensures CRYPTO_REPORTS[1].0 == "derivatives_report" && CRYPTO_REPORTS[2].0 == "fundamentals_report"
  {
  }

  lemma ChangedOne(fields: seq<Field>, c: Chunk, before: seq<Chunk>, s: string, was: string)
    requires fields != []
    ensures var (n, text) := (|fields| - 1, ReportText(fields[|fields| - 1].0, c));
            Changed(fields, c, before, s, was)
            == if fields[n].1 == s && text != "" && text != LastReportText(fields[n].0, before) then text
               else Changed(fields[..n], c, before, s, was)
    ensures forall k :: 0 < k <= |fields| ==> fields[..k][..k - 1] == fields[..k - 1]
  {
    hide ReportText, LastReportText;
  }

  // ---------------------------------------------------------------------------------
  // The trader's plan and the results
  // ---------------------------------------------------------------------------------

  datatype Source = TraderPlan | Compliance | RiskManager | Confluence | Execution

  function SectionOf(src: Source): string {
    match src
    case TraderPlan => "trader"
    case Compliance => "compliance"
    case RiskManager => "risk_manager"
    case Confluence => "confluence"
    case Execution => "execution_monitor"
  }

  function Stripped(text: Option<string>): string {
    if text.Some? then Strip(text.value) else ""
  }

  function TextIn(src: Source, c: Chunk): string {
    match src
    case TraderPlan => Normalize(c.trader)
    case Compliance => Stripped(c.compliance)
    case RiskManager => Stripped(c.riskManager)
    case Confluence => Stripped(c.confluence)
    case Execution => Stripped(c.executionNotes)
  }

  function Remembered(src: Source, m: Memory): string {
    match src
    case TraderPlan => m.trader
    case Compliance => m.compliance
    case RiskManager => m.riskManager
    case Confluence => m.confluence
    case Execution => m.executionNotes
  }

  /** The last text any snapshot had for a section, `""` if none. */
  function LastText(src: Source, chunks: seq<Chunk>): string {
    if chunks == [] then ""
    else
      var text := TextIn(src, chunks[|chunks| - 1]);
      if text != "" then text else LastText(src, chunks[..|chunks| - 1])
  }

  lemma ResultApplied(agent: Agent, section: string, text: Option<string>, prev: string, s: string)
    requires section == s
    ensures Applied(ResultScript(agent, section, text, prev), s, prev)
            == if Stripped(text) != "" then Stripped(text) else prev
  {
    hide Strip, Applied;
    NothingApplied(s, prev);
    if NewText(text, prev) {
      CompletedAndShown(agent, section, Strip(text.value), s, prev);
    }
  }

  lemma ConfluenceApplied(text: Option<string>, prev: string)
    ensures Applied(ConfluenceScript(text, prev), "confluence", prev)
            == if Stripped(text) != "" then Stripped(text) else prev
  {
    hide Strip, Applied, ResultScript, ShowsOnly, BranchOf;
    var result := ResultScript("Confluence Checker", "confluence", text, prev);
    var starts := if NewText(text, prev) then [Start("Bull Researcher"), Start("Bear Researcher")] else [];
    ResultApplied("Confluence Checker", "confluence", text, prev, "confluence");
    AppliedConcat(result, starts, "confluence", prev);
    NoShowStays(starts, "confluence", Applied(result, "confluence", prev));
  }

  lemma NoShowStays(script: seq<Action>, s: string, was: string)
    requires forall i :: 0 <= i < |script| ==> !script[i].Show?
    ensures Applied(script, s, was) == was
  {
    OthersStay(script, {}, s, was);
  }

  lemma TraderApplied(mode: Mode, plan: string, prev: string)
    ensures Applied(TraderScript(mode, plan, prev), "trader", prev) == if plan != "" then plan else prev
  {
    hide Applied;
    NothingApplied("trader", prev);
    if plan != "" && plan != prev {
      var first := [Show("trader", plan, false)];
      var rest := [Finish("Trader"), Start(if mode.quickTrade then "Risk Manager" else "Compliance Officer")];
      assert TraderScript(mode, plan, prev) == first + rest;
      AppliedConcat(first, rest, "trader", prev);
      AppliedOne(first[0], "trader", prev);
      NoShowStays(rest, "trader", Applied(first, "trader", prev));
    }
  }

  lemma SourceStep(mode: Mode, m: Memory, c: Chunk, src: Source)
    ensures var (was, text) := (Remembered(src, m), TextIn(src, c));
            && Remembered(src, Remember(mode, m, c)) == (if text != "" then text else was)
            && Applied(Script(mode, m, c), SectionOf(src), was) == Remembered(src, Remember(mode, m, c))
  {
    hide Applied, EarlyScript, LateScript, Strip, Normalize, LatestReports, NewDecision, ReportFields, Script;
    var (s, was) := (SectionOf(src), Remembered(src, m));
    SectionNames();
    hide BranchOf;
    ScriptApplied(mode, m, c, s, was);
    EarlyApplied(mode, m, c, s, was);
    LateApplied(mode, m, c, s, Applied(EarlyScript(mode, m, c), s, was));
    match src
    case TraderPlan => TraderApplied(mode, Normalize(c.trader), m.trader);
    case Compliance => ResultApplied("Compliance Officer", s, c.compliance, m.compliance, s);
    case RiskManager => ResultApplied("Risk Manager", s, c.riskManager, m.riskManager, s);
    case Confluence => ConfluenceApplied(c.confluence, m.confluence);
    case Execution => ResultApplied("Execution Monitor", s, c.executionNotes, m.executionNotes, s);
  }

  /** Over every run and in every mode the client holds the last text the snapshots had for the
      section. Nothing is lost by sending changes only. */
  lemma {:induction false} ClientHoldsLastText(mode: Mode, next: Option<nat>, chunks: seq<Chunk>, src: Source)
    ensures var (st, trace) := ParseAll(Initial(mode, next), chunks);
            && st.mode == mode && Remembered(src, st.memory) == LastText(src, chunks)
            && Cached(trace, SectionOf(src), "") == LastText(src, chunks)
  {
    hide ParseAll, Cached, Applied, Script, Remember, TextIn, SectionOf;
    if chunks == [] {
      NoChunks(mode, next, SectionOf(src));
    } else {
      hide Remembered;
      var (st, trace) := ParseAll(Initial(mode, next), chunks[..|chunks| - 1]);
      ClientHoldsLastText(mode, next, chunks[..|chunks| - 1], src);
      RunIsCached(mode, next, chunks, SectionOf(src));
      SourceStep(mode, st.memory, chunks[|chunks| - 1], src);
    }
  }

  // ---------------------------------------------------------------------------------
  // Debate histories
  // ---------------------------------------------------------------------------------

  /** One history of the research debate or of the risk debate, by its index. */
  datatype History = Research(index: nat) | Risk(index: nat) {
    predicate Valid() {
      index < 3
    }

    function Field(): Field
      requires Valid()
    {
      match this
      case Research(0) => ("bull_history", "research_bull", "Bull Researcher")
      case Research(1) => ("bear_history", "research_bear", "Bear Researcher")
      case Research(_) => ("judge_decision", "research_manager", "Research Manager")
      case Risk(0) => ("aggressive_history", "risk_aggressive", "Aggressive Analyst")
      case Risk(1) => ("conservative_history", "risk_conservative", "Conservative Analyst")
      case Risk(_) => ("neutral_history", "risk_neutral", "Neutral Analyst")
    }

    function In(c: Chunk): Option<Debate> {
      if Research? then c.debate else c.risk
    }

    /** Quick trades skip the risk debate. */
    predicate Shown(mode: Mode) {
      Risk? ==> !mode.quickTrade
    }
  }

  function LastDebate(h: History, chunks: seq<Chunk>): Option<Debate> {
    if chunks == [] then None
    else if h.In(chunks[|chunks| - 1]).Some? then h.In(chunks[|chunks| - 1])
    else LastDebate(h, chunks[..|chunks| - 1])
  }

  /** The texts of a history that differ from the debate before them, in order. */
  function Changes(h: History, chunks: seq<Chunk>): seq<string>
    requires h.Valid()
  {
    if chunks == [] then []
    else
      var (before, d) := (chunks[..|chunks| - 1], h.In(chunks[|chunks| - 1]));
      Changes(h, before) + if NewIn(d, LastDebate(h, before), h.Field().0) then [TextOf(d, h.Field().0)] else []
  }

  function LastHistory(h: History, chunks: seq<Chunk>): string
    requires h.Valid()
  {
    if chunks == [] then ""
    else
      var text := TextOf(h.In(chunks[|chunks| - 1]), h.Field().0);
      if text != "" then text else LastHistory(h, chunks[..|chunks| - 1])
  }

  function Joined(texts: seq<string>): string {
    if texts == [] then "" else Joined(texts[..|texts| - 1]) + texts[|texts| - 1]
  }

  lemma {:induction false} ForeignFields(
    fields: seq<Field>, d: Option<Debate>, prev: Option<Debate>, s: string, was: string)
    requires forall i :: 0 <= i < |fields| ==> fields[i].1 != s
    ensures Applied(FieldScript(fields, d, prev), s, was) == was
  {
    hide Applied, NewIn, TextOf;
    if fields == [] {
      NothingApplied(s, was);
    } else {
      var n := |fields| - 1;
      ForeignFields(fields[..n], d, prev, s, was);
      FieldTurn(fields, d, prev, s, was);
    }
  }

  lemma FieldTurn(fields: seq<Field>, d: Option<Debate>, prev: Option<Debate>, s: string, was: string)
    requires fields != []
    ensures var (n, f) := (|fields| - 1, fields[|fields| - 1]);
            var before := Applied(FieldScript(fields[..n], d, prev), s, was);
            Applied(FieldScript(fields, d, prev), s, was)
            == if f.1 == s && NewIn(d, prev, f.0) then before + TextOf(d, f.0) else before
  {
    hide Applied, NewIn, TextOf;
    var (n, f) := (|fields| - 1, fields[|fields| - 1]);
    var (init, text) := (FieldScript(fields[..n], d, prev), TextOf(d, f.0));
    if NewIn(d, prev, f.0) {
      AppliedConcat(init, [Start(f.2), Show(f.1, text, true)], s, was);
      StartedAndAppended(f.2, f.1, text, s, Applied(init, s, was));
    } else {
      assert init + [] == init;
    }
  }

  lemma StartedAndAppended(agent: Agent, section: string, text: string, s: string, was: string)
    ensures Applied([Start(agent), Show(section, text, true)], s, was) == if section == s then was + text else was
  {
    var both := [Start(agent), Show(section, text, true)];
    assert both[..1] == [Start(agent)];
    AppliedOne(Start(agent), s, was);
  }

  lemma {:induction false} FieldsApplied(
    fields: seq<Field>, i: nat, d: Option<Debate>, prev: Option<Debate>, was: string)
    requires i < |fields| && forall j :: 0 <= j < |fields| && j != i ==> fields[j].1 != fields[i].1
    ensures Applied(FieldScript(fields, d, prev), fields[i].1, was)
            == if NewIn(d, prev, fields[i].0) then was + TextOf(d, fields[i].0) else was
    decreases |fields|
  {
    hide Applied, NewIn, TextOf, FieldScript;
    var n := |fields| - 1;
    FieldTurn(fields, d, prev, fields[i].1, was);
    if i == n {
      ForeignFields(fields[..n], d, prev, fields[n].1, was);
    } else {
      FieldsApplied(fields[..n], i, d, prev, was);
    }
  }

  lemma HistorySections(h: History)
    requires h.Valid()
    ensures forall j :: 0 <= j < 3 && j != h.index ==> DEBATE_FIELDS[j].1 != DEBATE_FIELDS[h.index].1
    ensures forall j :: 0 <= j < 3 && j != h.index ==> RISK_FIELDS[j].1 != RISK_FIELDS[h.index].1
  {
    assert "risk_aggressive"[5] == 'a' && "research_bull"[10] == 'u';
  }

  lemma SameDebateIsNotNew(d: Option<Debate>, field: string)
    ensures !NewIn(d, d, field) && !NewIn(None, d, field)
  {
  }

  lemma ResearchApplied(h: History, d: Option<Debate>, prev: Option<Debate>, was: string)
    requires h.Valid() && h.Research?
    ensures Applied(DebateScript(d, prev), h.Field().1, was)
            == if NewIn(d, prev, h.Field().0) then was + TextOf(d, h.Field().0) else was
  {
    hide Applied, NewIn, TextOf, FieldScript;
    var s := h.Field().1;
    SameDebateIsNotNew(prev, h.Field().0);
    NothingApplied(s, was);
    if d.Some? && d != prev {
      HistorySections(h);
      FieldsApplied(DEBATE_FIELDS, h.index, d, prev, was);
      var fields := FieldScript(DEBATE_FIELDS, d, prev);
      var rest := if NewIn(d, prev, "judge_decision")
                  then [Finish("Bull Researcher"), Finish("Bear Researcher"), Finish("Research Manager"),
                        Start("Trader")]
                  else [];
      AppliedConcat(fields, rest, s, was);
      NoShowStays(rest, s, Applied(fields, s, was));
    }
  }

  /** The judge's part of the risk branch. */
  function JudgeScript(d: Option<Debate>, prev: Option<Debate>): seq<Action> {
    if NewIn(d, prev, "judge_decision")
    then [Show("portfolio_manager", TextOf(d, "judge_decision"), false)]
         + FinishAll(RISK_AGENTS) + [Start("Portfolio Manager")]
    else []
  }

  lemma JudgeApplied(d: Option<Debate>, prev: Option<Debate>, s: string, was: string)
    ensures Applied(JudgeScript(d, prev), s, was)
            == if s == "portfolio_manager" && NewIn(d, prev, "judge_decision") then TextOf(d, "judge_decision") else was
  {
    hide Applied, NewIn, TextOf, FinishAll, ShowsOnly;
    NothingApplied(s, was);
    if NewIn(d, prev, "judge_decision") {
      var show := [Show("portfolio_manager", TextOf(d, "judge_decision"), false)];
      var (finish, start) := (FinishAll(RISK_AGENTS), [Start("Portfolio Manager")]);
      AppliedConcat(show, finish, s, was);
      AppliedConcat(show + finish, start, s, was);
      AppliedOne(show[0], s, was);
      FinishAllShows(RISK_AGENTS);
      OthersStay(finish, {}, s, Applied(show, s, was));
      AppliedOne(start[0], s, Applied(show, s, was));
    }
  }

  lemma RiskApplied(mode: Mode, d: Option<Debate>, prev: Option<Debate>, s: string, was: string)
    ensures Applied(RiskScript(mode, d, prev), s, was)
            == if d.None? || d == prev || mode.quickTrade then was
               else Applied(JudgeScript(d, prev), s, Applied(FieldScript(RISK_FIELDS, d, prev), s, was))
  {
    hide Applied, NewIn, TextOf, FinishAll, FieldScript;
    NothingApplied(s, was);
    AppliedConcat(FieldScript(RISK_FIELDS, d, prev), JudgeScript(d, prev), s, was);
  }

  lemma RiskHistoryApplied(mode: Mode, h: History, d: Option<Debate>, prev: Option<Debate>, was: string)
    requires h.Valid() && h.Risk? && !mode.quickTrade
    ensures Applied(RiskScript(mode, d, prev), h.Field().1, was)
            == if NewIn(d, prev, h.Field().0) then was + TextOf(d, h.Field().0) else was
  {
    hide Applied, NewIn, TextOf, FieldScript, RiskScript, JudgeScript;
    var s := h.Field().1;
    RiskApplied(mode, d, prev, s, was);
    SameDebateIsNotNew(prev, h.Field().0);
    if d.Some? && d != prev {
      HistorySections(h);
      FieldsApplied(RISK_FIELDS, h.index, d, prev, was);
      DebateFields();
      SectionNames();
      JudgeApplied(d, prev, s, Applied(FieldScript(RISK_FIELDS, d, prev), s, was));
    }
  }

  function RememberedDebate(h: History, m: Memory): Option<Debate> {
    if h.Research? then m.debate else m.risk
  }

  lemma HistoryStep(mode: Mode, m: Memory, c: Chunk, h: History, was: string)
    requires h.Valid() && h.Shown(mode)
    ensures var (d, prev, (field, s, _)) := (h.In(c), RememberedDebate(h, m), h.Field());
            && RememberedDebate(h, Remember(mode, m, c)) == (if d.Some? then d else prev)
            && Applied(Script(mode, m, c), s, was) == if NewIn(d, prev, field) then was + TextOf(d, field) else was
  {
    hide Applied, EarlyScript, LateScript, Script, RiskScript, DebateScript, NewIn, TextOf, LatestReports, Latest;
    hide Normalize, NewDecision, ReportFields;
    var s := h.Field().1;
    DebateFields();
    hide BranchOf;
    ScriptApplied(mode, m, c, s, was);
    EarlyApplied(mode, m, c, s, was);
    LateApplied(mode, m, c, s, Applied(EarlyScript(mode, m, c), s, was));
    if h.Research? {
      ResearchApplied(h, c.debate, m.debate, was);
    } else {
      RiskHistoryApplied(mode, h, c.risk, m.risk, was);
    }
  }

  /** Over every run: each change of a history is sent whole but appended, so the client holds all
      its versions one after the other. */
  lemma {:induction false} ClientJoinsChanges(mode: Mode, next: Option<nat>, chunks: seq<Chunk>, h: History)
    requires h.Valid() && h.Shown(mode)
    ensures var (st, trace) := ParseAll(Initial(mode, next), chunks);
            && st.mode == mode && RememberedDebate(h, st.memory) == LastDebate(h, chunks)
            && Cached(trace, h.Field().1, "") == Joined(Changes(h, chunks))
  {
    hide ParseAll, Cached, Applied, Script, Remember, NewIn, TextOf, History.Field;
    var s := h.Field().1;
    if chunks == [] {
      NoChunks(mode, next, s);
    } else {
      hide RememberedDebate;
      var (st, trace) := ParseAll(Initial(mode, next), chunks[..|chunks| - 1]);
      ClientJoinsChanges(mode, next, chunks[..|chunks| - 1], h);
      RunIsCached(mode, next, chunks, s);
      HistoryStep(mode, st.memory, chunks[|chunks| - 1], h, Cached(trace, s, ""));
      JoinedSnoc(Changes(h, chunks[..|chunks| - 1]), TextOf(h.In(chunks[|chunks| - 1]), h.Field().0));
    }
  }

  lemma JoinedSnoc(texts: seq<string>, text: string)
    ensures Joined(texts + [text]) == Joined(texts) + text && texts + [] == texts
  {
  }


  /** The last change is the last text, and every change has one. */
  lemma {:induction false} LastChangeIsLastText(h: History, chunks: seq<Chunk>)
    requires h.Valid()
    ensures var (texts, now) := (Changes(h, chunks), TextOf(LastDebate(h, chunks), h.Field().0));
            && LastHistory(h, chunks) == (if texts == [] then "" else texts[|texts| - 1])
            && (now != "" ==> texts != [] && now == texts[|texts| - 1])
            && forall i :: 0 <= i < |texts| ==> texts[i] != ""
  {
    hide TextOf, History.Field;
    if chunks == [] {
      NoDebateText(h);
    } else {
      LastChangeIsLastText(h, chunks[..|chunks| - 1]);
      if h.In(chunks[|chunks| - 1]).None? {
        NoDebateText(h);
      }
    }
  }

  lemma NoDebateText(h: History)
    requires h.Valid()
    ensures TextOf(None, h.Field().0) == ""
  {
  }

  lemma {:induction false} JoinedLength(texts: seq<string>)
    requires forall i :: 0 <= i < |texts| ==> texts[i] != ""
    ensures |Joined(texts)| >= |texts|
  {
    if texts != [] {
      JoinedLength(texts[..|texts| - 1]);
    }
  }

  /** The client holds the last text of a history exactly when the history changed at most once. */
  lemma HistoryIsLastTextExactly(mode: Mode, next: Option<nat>, chunks: seq<Chunk>, h: History)
    requires h.Valid() && h.Shown(mode)
    ensures Cached(ParseAll(Initial(mode, next), chunks).1, h.Field().1, "") == LastHistory(h, chunks)
            <==> |Changes(h, chunks)| <= 1
  {
    hide ParseAll, Cached, Changes, LastHistory, TextOf, History.Field;
    var texts := Changes(h, chunks);
    ClientJoinsChanges(mode, next, chunks, h);
    LastChangeIsLastText(h, chunks);
    if texts != [] {
      var init := texts[..|texts| - 1];
      JoinedLength(init);
      assert Joined(texts) == Joined(init) + texts[|texts| - 1];
      assert |init| == 0 ==> init == [] && Joined(init) == "";
    }
  }

  /** A snapshot that has nothing but a bull history. */
  function BullChunk(text: string): Chunk {
    Chunk(Listed([]), map[], Some(Debate(map["bull_history" := text], 0)), None, None, None, None, None, None, None)
  }

  lemma BullTexts()
    ensures TextOf(BullChunk("a").debate, "bull_history") == "a"
    ensures TextOf(BullChunk("ab").debate, "bull_history") == "ab"
  {
    assert Strip("a") == "a" && Strip("ab") == "ab";
  }

  lemma BullChanges(first: string, second: string)
    requires TextOf(BullChunk(first).debate, "bull_history") == first != ""
    requires TextOf(BullChunk(second).debate, "bull_history") == second != "" && first != second
    ensures var chunks := [BullChunk(first), BullChunk(second)];
            Changes(Research(0), chunks) == [first, second] && LastHistory(Research(0), chunks) == second
  {
    var (h, one, chunks) := (Research(0), [BullChunk(first)], [BullChunk(first), BullChunk(second)]);
    NoDebateText(h);
    assert h.Field().0 == "bull_history";
    hide TextOf;
    assert chunks[..1] == one && one[..0] == [];
    assert Changes(h, one) == Changes(h, []) + [first];
    assert Changes(h, chunks) == Changes(h, one) + [second];
  }

  lemma JoinedTwo(first: string, second: string)
    ensures Joined([first, second]) == first + second
  {
    JoinedSnoc([], first);
    JoinedSnoc([first], second);
    assert [] + [first] == [first] && [first] + [second] == [first, second];
  }

  lemma BullField()
    ensures Research(0).Field().1 == "research_bull"
  {
  }

  /** Such a run: the bull history "a" grows to "ab", and the client holds "aab". */
  lemma GrowingHistoryIsRepeated(mode: Mode, next: Option<nat>)
    ensures var chunks := [BullChunk("a"), BullChunk("ab")];
            && LastHistory(Research(0), chunks) == "ab"
            && Cached(ParseAll(Initial(mode, next), chunks).1, "research_bull", "") == "aab"
  {
    hide ParseAll, Cached, Changes, LastHistory, TextOf, BullChunk, Joined, History.Field, LastDebate;
    BullTexts();
    BullField();
    BullChanges("a", "ab");
    ClientJoinsChanges(mode, next, [BullChunk("a"), BullChunk("ab")], Research(0));
    JoinedTwo("a", "ab");
    assert "a" + "ab" == "aab";
  }

  // ---------------------------------------------------------------------------------
  // The portfolio manager and the final decision
  // ---------------------------------------------------------------------------------

  const JUDGE := Risk(0)

  /** The last decision of a snapshot without a risk debate; others are held back. */
  function LastDecision(chunks: seq<Chunk>): string {
    if chunks == [] then ""
    else
      var c := chunks[|chunks| - 1];
      if c.risk.None? && Normalize(c.decision) != "" then Normalize(c.decision)
      else LastDecision(chunks[..|chunks| - 1])
  }

  /** What changed last of the judge's decision and the final one. */
  function PortfolioText(chunks: seq<Chunk>): string {
    if chunks == [] then ""
    else
      var (before, c) := (chunks[..|chunks| - 1], chunks[|chunks| - 1]);
      if NewIn(c.risk, LastDebate(JUDGE, before), "judge_decision") then TextOf(c.risk, "judge_decision")
      else if NewDecision(c, LastDecision(before)) then Normalize(c.decision)
      else PortfolioText(before)
  }

  lemma DecisionApplied(mode: Mode, c: Chunk, prev: string, was: string)
    ensures Applied(DecisionScript(mode, c, prev), "portfolio_manager", was)
            == if NewDecision(c, prev) && !mode.quickTrade then Normalize(c.decision) else was
    ensures Applied(DecisionScript(mode, c, prev), "final_decision", was)
            == if NewDecision(c, prev) && mode.quickTrade then Normalize(c.decision) else was
  {
    hide Applied, NewDecision, Normalize;
    SectionNames();
    hide BranchOf;
    NothingApplied("portfolio_manager", was);
    NothingApplied("final_decision", was);
    DecisionShown(mode, Normalize(c.decision), "portfolio_manager", was);
    DecisionShown(mode, Normalize(c.decision), "final_decision", was);
  }

  lemma DecisionShown(mode: Mode, text: string, s: string, was: string)
    ensures Applied([Show("final_decision", text, false)], s, was) == if s == "final_decision" then text else was
    ensures Applied([Show("portfolio_manager", text, false), Finish("Portfolio Manager"),
                     Start("Execution Monitor")], s, was)
            == if s == "portfolio_manager" then text else was
  {
    hide Applied;
    var first := [Show("portfolio_manager", text, false)];
    var rest := [Finish("Portfolio Manager"), Start("Execution Monitor")];
    AppliedOne(Show("final_decision", text, false), s, was);
    AppliedOne(first[0], s, was);
    AppliedConcat(first, rest, s, was);
    NoShowStays(rest, s, Applied(first, s, was));
    assert first + rest == [Show("portfolio_manager", text, false), Finish("Portfolio Manager"),
                            Start("Execution Monitor")];
  }

  lemma JudgeStep(mode: Mode, d: Option<Debate>, prev: Option<Debate>, was: string)
    ensures Applied(RiskScript(mode, d, prev), "portfolio_manager", was)
            == if NewIn(d, prev, "judge_decision") && !mode.quickTrade then TextOf(d, "judge_decision") else was
  {
    hide Applied, NewIn, TextOf, FieldScript, RiskScript, JudgeScript;
    RiskApplied(mode, d, prev, "portfolio_manager", was);
    SameDebateIsNotNew(prev, "judge_decision");
    DebateFields();
    SectionNames();
    ForeignFields(RISK_FIELDS, d, prev, "portfolio_manager", was);
    JudgeApplied(d, prev, "portfolio_manager", was);
  }

  lemma DecisionStep(mode: Mode, m: Memory, c: Chunk, was: string)
    ensures var m' := Remember(mode, m, c);
            && m'.decision
               == (if c.risk.None? && Normalize(c.decision) != "" then Normalize(c.decision) else m.decision)
            && m'.risk == (if c.risk.Some? && !mode.quickTrade then c.risk else m.risk)
    ensures Applied(Script(mode, m, c), "portfolio_manager", was)
            == if mode.quickTrade then was
               else if NewIn(c.risk, m.risk, "judge_decision") then TextOf(c.risk, "judge_decision")
               else if NewDecision(c, m.decision) then Normalize(c.decision) else was
    ensures Applied(Script(mode, m, c), "final_decision", was)
            == if mode.quickTrade && NewDecision(c, m.decision) then Normalize(c.decision) else was
  {
    hide Applied, EarlyScript, LateScript, Script, RiskScript, DecisionScript, Normalize, LatestReports, Latest;
    hide ReportFields, TextOf;
    SectionNames();
    hide BranchOf;
    PortfolioSections(mode, m, c, was);
    JudgeStep(mode, c.risk, m.risk, was);
    var judged := Applied(RiskScript(mode, c.risk, m.risk), "portfolio_manager", was);
    DecisionApplied(mode, c, m.decision, judged);
    DecisionApplied(mode, c, m.decision, was);
    NoDebateIsNotNew(c.risk, m.risk);
  }

  lemma NoDebateIsNotNew(d: Option<Debate>, prev: Option<Debate>)
    ensures d.None? ==> !NewIn(d, prev, "judge_decision")
  {
  }

  lemma PortfolioSections(mode: Mode, m: Memory, c: Chunk, was: string)
    ensures Applied(Script(mode, m, c), "portfolio_manager", was)
            == Applied(DecisionScript(mode, c, m.decision), "portfolio_manager",
                       Applied(RiskScript(mode, c.risk, m.risk), "portfolio_manager", was))
    ensures Applied(Script(mode, m, c), "final_decision", was)
            == Applied(DecisionScript(mode, c, m.decision), "final_decision", was)
  {
    hide Applied, EarlyScript, LateScript, Script, RiskScript, DecisionScript;
    SectionNames();
    hide BranchOf;
    ScriptApplied(mode, m, c, "portfolio_manager", was);
    EarlyApplied(mode, m, c, "portfolio_manager", was);
    LateApplied(mode, m, c, "portfolio_manager", was);
    ScriptApplied(mode, m, c, "final_decision", was);
    EarlyApplied(mode, m, c, "final_decision", was);
    LateApplied(mode, m, c, "final_decision", was);
  }

  /** Over every run: the portfolio manager's section, written by two branches, has what changed
      last of the judge's decision and the final one; quick trades write the final decision to a
      section of its own instead. A decision is held back while a risk debate is present. */
  lemma {:induction false} ClientHoldsDecisions(mode: Mode, next: Option<nat>, chunks: seq<Chunk>)
    ensures var (st, trace) := ParseAll(Initial(mode, next), chunks);
            && st.mode == mode && st.memory.decision == LastDecision(chunks)
            && (!mode.quickTrade ==> st.memory.risk == LastDebate(JUDGE, chunks))
            && Cached(trace, "portfolio_manager", "") == (if mode.quickTrade then "" else PortfolioText(chunks))
            && Cached(trace, "final_decision", "") == (if mode.quickTrade then LastDecision(chunks) else "")
  {
    hide ParseAll, Cached, Applied, Script, Remember, NewIn, TextOf, Normalize;
    if chunks == [] {
      NoChunks(mode, next, "portfolio_manager");
      NoChunks(mode, next, "final_decision");
    } else {
      var (before, c) := (chunks[..|chunks| - 1], chunks[|chunks| - 1]);
      var (st, trace) := ParseAll(Initial(mode, next), before);
      ClientHoldsDecisions(mode, next, before);
      RunIsCached(mode, next, chunks, "portfolio_manager");
      RunIsCached(mode, next, chunks, "final_decision");
      DecisionStep(mode, st.memory, c, Cached(trace, "portfolio_manager", ""));
      DecisionStep(mode, st.memory, c, Cached(trace, "final_decision", ""));
    }
  }
}
