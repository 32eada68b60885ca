/**
 Which agents the chunks of backend/stream_parser.py announce and complete. What a chunk says of an
 agent is told from the snapshots alone: from the texts that changed in it, the mode, and what the
 chunks before it said.
 */
module StreamStatuses {
  import opened Common
  import opened StreamParser
  import opened StreamReports

  // ---------------------------------------------------------------------------------
  // What changed in a chunk
  // ---------------------------------------------------------------------------------

  predicate ReportChanges(name: string, before: seq<Chunk>, c: Chunk) {
    ReportText(name, c) != "" && ReportText(name, c) != LastReportText(name, before)
  }

  predicate SourceChanges(src: Source, before: seq<Chunk>, c: Chunk) {
    TextIn(src, c) != "" && TextIn(src, c) != LastText(src, before)
  }

  /** A text of the research debate or of the risk debate differs from the debate before it. */
  predicate DebateChanges(h: History, field: string, before: seq<Chunk>, c: Chunk) {
    TextOf(h.In(c), field) != "" && TextOf(h.In(c), field) != TextOf(LastDebate(h, before), field)
  }

  /** A decision is held back while a risk debate is present. */
  predicate DecisionChanges(before: seq<Chunk>, c: Chunk) {
    c.risk.None? && Normalize(c.decision) != "" && Normalize(c.decision) != LastDecision(before)
  }

  const RESEARCH := Research(0)
  const RISK := Risk(0)

  // ---------------------------------------------------------------------------------
  // What that says of the agents
  // ---------------------------------------------------------------------------------

  function When(changed: bool, agents: set<Agent>): set<Agent> {
    if changed then agents else {}
  }

  /** The analysts whose report changed. */
  function Reporting(mode: Mode, before: seq<Chunk>, c: Chunk): set<Agent> {
    if mode.crypto then
      When(ReportChanges("market_report", before, c), {"Technical Analyst"})
      + When(ReportChanges("derivatives_report", before, c), {"Derivatives Analyst"})
      + When(ReportChanges("fundamentals_report", before, c), {"Derivatives Analyst"})
      + When(ReportChanges("news_report", before, c), {"News Analyst"})
      + When(ReportChanges("crypto_fundamentals_report", before, c), {"Fundamentals Analyst"})
      + When(ReportChanges("sentiment_report", before, c), {"Social Analyst"})
    else
      When(ReportChanges("market_report", before, c), {"Market Analyst"})
      + When(ReportChanges("sentiment_report", before, c), {"Social Analyst"})
      + When(ReportChanges("news_report", before, c), {"News Analyst"})
      + When(ReportChanges("fundamentals_report", before, c), {"Fundamentals Analyst"})
  }

  /** The agents that a chunk completes: each by the text that is its result. */
  function Completes(mode: Mode, before: seq<Chunk>, c: Chunk): set<Agent> {
    (Reporting(mode, before, c)
     + When(DebateChanges(RESEARCH, "judge_decision", before, c),
            {"Bull Researcher", "Bear Researcher", "Research Manager"})
     + When(SourceChanges(TraderPlan, before, c), {"Trader"})
     + When(SourceChanges(Compliance, before, c), {"Compliance Officer"})
     + When(SourceChanges(RiskManager, before, c), {"Risk Manager"}))
    + (When(SourceChanges(Confluence, before, c), {"Confluence Checker"})
       + When(!mode.quickTrade && DebateChanges(RISK, "judge_decision", before, c),
              {"Aggressive Analyst", "Conservative Analyst", "Neutral Analyst", "Bull Analyst", "Bear Analyst"})
       + When(!mode.quickTrade && DecisionChanges(before, c), {"Portfolio Manager"})
       + When(SourceChanges(Execution, before, c), {"Execution Monitor"}))
  }

  /** The agents that a chunk sets to work: who argues in a debate, and the next stage of the mode
      behind each result. */
  function Starts(mode: Mode, before: seq<Chunk>, c: Chunk): set<Agent> {
    (When(DebateChanges(RESEARCH, "bull_history", before, c), {"Bull Researcher"})
     + When(DebateChanges(RESEARCH, "bear_history", before, c), {"Bear Researcher"})
     + When(DebateChanges(RESEARCH, "judge_decision", before, c), {"Research Manager", "Trader"})
     + When(SourceChanges(TraderPlan, before, c), {if mode.quickTrade then "Risk Manager" else "Compliance Officer"}))
    + (When(SourceChanges(Confluence, before, c), {"Bull Researcher", "Bear Researcher"})
       + When(!mode.quickTrade,
              When(DebateChanges(RISK, "aggressive_history", before, c), {"Aggressive Analyst"})
              + When(DebateChanges(RISK, "conservative_history", before, c), {"Conservative Analyst"})
              + When(DebateChanges(RISK, "neutral_history", before, c), {"Neutral Analyst"})
              + When(DebateChanges(RISK, "judge_decision", before, c), {"Portfolio Manager"}))
       + When(!mode.quickTrade && DecisionChanges(before, c), {"Execution Monitor"}))
  }

  /** The agents that the chunks of a run set to work or completed. */
  function Begun(mode: Mode, chunks: seq<Chunk>): set<Agent> {
    if chunks == [] then {}
    else
      var before, c := chunks[..|chunks| - 1], chunks[|chunks| - 1];
      Begun(mode, before) + Starts(mode, before, c) + Completes(mode, before, c)
  }

  /** The last message that is new in the chunk names the agent. */
  predicate NamedLast(before: seq<Chunk>, c: Chunk, agent: Agent) {
    && c.messages.Listed? && CountAfterAll(0, before) < |c.messages.items|
    && c.messages.items[|c.messages.items| - 1].name == Some(agent) && agent != ""
  }

  // ---------------------------------------------------------------------------------
  // The agents of a script
  // ---------------------------------------------------------------------------------

  function Finished(script: seq<Action>): set<Agent> {
    set i | 0 <= i < |script| && script[i].Finish? :: script[i].agent
  }

  function Started(script: seq<Action>): set<Agent> {
    set i | 0 <= i < |script| && script[i].Start? :: script[i].agent
  }

  /** These are the agents it finishes and those it starts. */
  ghost predicate Acts(script: seq<Action>, finished: set<Agent>, started: set<Agent>) {
    Finished(script) == finished && Started(script) == started
  }

  lemma ActsConcat(a: seq<Action>, b: seq<Action>)
    ensures Finished(a + b) == Finished(a) + Finished(b)
    ensures Started(a + b) == Started(a) + Started(b)
  {
    assert forall i :: 0 <= i < |b| ==> (a + b)[|a| + i] == b[i];
    assert forall i :: 0 <= i < |a| ==> (a + b)[i] == a[i];
    forall agent
      ensures agent in Finished(a + b) <==> agent in Finished(a) + Finished(b)
      ensures agent in Started(a + b) <==> agent in Started(a) + Started(b)
    {
    }
  }

  lemma {:induction false} PlayStatuses(seen: set<Agent>, script: seq<Action>)
    ensures var (after, events) := Play(seen, script);
            && after == seen + Finished(script) + Started(script)
            && (forall a :: Completed(a) in events <==> a in Finished(script))
            && (forall a :: InProgress(a) in events <==>
                              a in Started(script) || (a in Finished(script) && a !in seen))
  {
    hide Do, Finished, Started;
    if script == [] {
      ActsOfNothing();
    } else {
      var n := |script| - 1;
      var (before, events) := Play(seen, script[..n]);
      PlayStatuses(seen, script[..n]);
      ActsConcat(script[..n], [script[n]]);
      assert script[..n] + [script[n]] == script;
      ActsOfOne(script[n]);
      DoStatuses(before, script[n]);
    }
  }

  lemma ActsOfNothing()
    ensures Acts([], {}, {})
  {
  }

  lemma ActsOfOne(a: Action)
    ensures Acts([a], if a.Finish? then {a.agent} else {}, if a.Start? then {a.agent} else {})
  {
    assert [a][0] == a;
  }

  lemma DoStatuses(seen: set<Agent>, act: Action)
    ensures var (after, events) := Do(seen, act);
            && after == seen + (if act.Show? then {} else {act.agent})
            && (forall a :: Completed(a) in events <==> act == Finish(a))
            && (forall a :: InProgress(a) in events <==> act == Start(a) || (act == Finish(a) && a !in seen))
  {
  }

  // ---------------------------------------------------------------------------------
  // The agents of each branch
  // ---------------------------------------------------------------------------------

  lemma {:induction false} ReportsAct(fields: seq<Field>, chunk: map<string, string>, prev: map<string, string>)
    requires DistinctNames(fields)
    ensures Acts(ReportScript(fields, chunk, prev), NewReporters(fields, chunk, prev), {})
  {
    if fields == [] {
      ActsOfNothing();
    } else {
      var n := |fields| - 1;
      var (init, text) := (fields[..n], Strip(Get(chunk, fields[n].0)));
      ReportsAct(init, chunk, prev);
      ReportTurn(fields, n, chunk, prev);
      OtherFieldsStay(init, chunk, prev, fields[n].0);
      ActsConcat(ReportScript(init, chunk, prev), [Finish(fields[n].2), Show(fields[n].1, text, false)]);
      FinishAndShow(fields[n].2, fields[n].1, text);
      NewReportersGrow(fields, chunk, prev);
      hide Strip, Get, Finished, Started, ReportScript, LatestReports, NewReporters;
      assert fields[..n + 1] == fields;
    }
  }

  function NewReporters(fields: seq<Field>, chunk: map<string, string>, prev: map<string, string>): set<Agent> {
    set i | 0 <= i < |fields| && NewReport(chunk, prev, fields[i].0) :: fields[i].2
  }

  lemma NewReportersGrow(fields: seq<Field>, chunk: map<string, string>, prev: map<string, string>)
    requires fields != []
    ensures var n := |fields| - 1;
            NewReporters(fields, chunk, prev)
            == NewReporters(fields[..n], chunk, prev)
               + if NewReport(chunk, prev, fields[n].0) then {fields[n].2} else {}
  {
    hide NewReport;
  }

  lemma FinishAndShow(agent: Agent, section: string, text: string)
    ensures Acts([Finish(agent), Show(section, text, false)], {agent}, {})
  {
    var turn := [Finish(agent), Show(section, text, false)];
    assert turn[0] == Finish(agent);
  }

  lemma StartAndShow(agent: Agent, section: string, text: string)
    ensures Acts([Start(agent), Show(section, text, true)], {}, {agent})
  {
    var turn := [Start(agent), Show(section, text, true)];
    assert turn[0] == Start(agent);
  }

  lemma {:induction false} FieldsAct(fields: seq<Field>, d: Option<Debate>, prev: Option<Debate>)
    ensures Acts(FieldScript(fields, d, prev), {},
                 set i | 0 <= i < |fields| && NewIn(d, prev, fields[i].0) :: fields[i].2)
  {
    hide TextOf, NewIn, Finished, Started;
    if fields == [] {
      ActsOfNothing();
    } else {
      var n := |fields| - 1;
      var init := fields[..n];
      FieldsAct(init, d, prev);
      var turn := [Start(fields[n].2), Show(fields[n].1, TextOf(d, fields[n].0), true)];
      ActsConcat(FieldScript(init, d, prev), turn);
      ActsConcat(FieldScript(init, d, prev), []);
      StartAndShow(fields[n].2, fields[n].1, TextOf(d, fields[n].0));
      ActsOfNothing();
      var (before, now) := (set i | 0 <= i < n && NewIn(d, prev, init[i].0) :: init[i].2,
                            set i | 0 <= i < |fields| && NewIn(d, prev, fields[i].0) :: fields[i].2);
      assert now == before + if NewIn(d, prev, fields[n].0) then {fields[n].2} else {};
    }
  }

  lemma {:induction false} FinishAllActs(agents: seq<Agent>)
    ensures Acts(FinishAll(agents), set a | a in agents, {})
  {
    hide Finished, Started;
    if agents == [] {
      ActsOfNothing();
    } else {
      var n := |agents| - 1;
      FinishAllActs(agents[..n]);
      ActsConcat(FinishAll(agents[..n]), [Finish(agents[n])]);
      ActsOfOne(Finish(agents[n]));
      assert agents == agents[..n] + [agents[n]];
      assert (set a | a in agents) == (set a | a in agents[..n]) + {agents[n]};
    }
  }

  lemma ResultActs(agent: Agent, section: string, text: Option<string>, prev: string)
    ensures Acts(ResultScript(agent, section, text, prev), When(NewText(text, prev), {agent}), {})
  {
    hide Strip, Acts;
    ActsOfNothing();
    if NewText(text, prev) {
      FinishAndShow(agent, section, Strip(text.value));
    }
  }

  lemma ConfluenceActs(text: Option<string>, prev: string)
    ensures Acts(ConfluenceScript(text, prev), When(NewText(text, prev), {"Confluence Checker"}),
                 When(NewText(text, prev), {"Bull Researcher", "Bear Researcher"}))
  {
    hide Finished, Started, NewText, ResultScript;
    var result := ResultScript("Confluence Checker", "confluence", text, prev);
    var starts := [Start("Bull Researcher"), Start("Bear Researcher")];
    ResultActs("Confluence Checker", "confluence", text, prev);
    ActsConcat(result, starts);
    ActsConcat(result, []);
    ActsConcat([Start("Bull Researcher")], [Start("Bear Researcher")]);
    assert [Start("Bull Researcher")] + [Start("Bear Researcher")] == starts;
    ActsOfOne(Start("Bull Researcher"));
    ActsOfOne(Start("Bear Researcher"));
    ActsOfNothing();
  }

  lemma TraderActs(mode: Mode, plan: string, prev: string)
    ensures Acts(TraderScript(mode, plan, prev), When(plan != "" && plan != prev, {"Trader"}),
                 When(plan != "" && plan != prev, {if mode.quickTrade then "Risk Manager" else "Compliance Officer"}))
  {
    ActsOfNothing();
    if plan != "" && plan != prev {
      ShowFinishStart("trader", plan, "Trader", if mode.quickTrade then "Risk Manager" else "Compliance Officer");
    }
    hide Acts;
  }

  lemma ShowFinishStart(section: string, text: string, done: Agent, next: Agent)
    ensures Acts([Show(section, text, false), Finish(done), Start(next)], {done}, {next})
  {
    var turn := [Show(section, text, false), Finish(done), Start(next)];
    assert turn[1] == Finish(done) && turn[2] == Start(next);
  }

  const JUDGED := [Finish("Bull Researcher"), Finish("Bear Researcher"), Finish("Research Manager"), Start("Trader")]

  lemma JudgedActs()
    ensures Acts(JUDGED, {"Bull Researcher", "Bear Researcher", "Research Manager"}, {"Trader"})
  {
    assert JUDGED[0] == Finish("Bull Researcher") && JUDGED[1] == Finish("Bear Researcher");
    assert JUDGED[2] == Finish("Research Manager") && JUDGED[3] == Start("Trader");
  }

  /** Who argues, and who judged. */
  lemma DebateActs(d: Option<Debate>, prev: Option<Debate>)
    ensures Acts(DebateScript(d, prev),
                 When(NewIn(d, prev, "judge_decision"), {"Bull Researcher", "Bear Researcher", "Research Manager"}),
                 When(NewIn(d, prev, "bull_history"), {"Bull Researcher"})
                 + When(NewIn(d, prev, "bear_history"), {"Bear Researcher"})
                 + When(NewIn(d, prev, "judge_decision"), {"Research Manager", "Trader"}))
  {
    SameDebateIsNotNew(prev, "judge_decision");
    SameDebateIsNotNew(prev, "bull_history");
    SameDebateIsNotNew(prev, "bear_history");
    hide NewIn, Finished, Started, FieldScript;
    if d.None? || d == prev {
      ActsOfNothing();
    } else {
      FieldsAct(DEBATE_FIELDS, d, prev);
      DebateArguers(d, prev);
      JudgedActs();
      ActsOfNothing();
      ActsConcat(FieldScript(DEBATE_FIELDS, d, prev), JUDGED);
      ActsConcat(FieldScript(DEBATE_FIELDS, d, prev), []);
    }
  }

  lemma DebateArguers(d: Option<Debate>, prev: Option<Debate>)
    ensures (set i | 0 <= i < |DEBATE_FIELDS| && NewIn(d, prev, DEBATE_FIELDS[i].0) :: DEBATE_FIELDS[i].2)
            == When(NewIn(d, prev, "bull_history"), {"Bull Researcher"})
               + When(NewIn(d, prev, "bear_history"), {"Bear Researcher"})
               + When(NewIn(d, prev, "judge_decision"), {"Research Manager"})
  {
    hide NewIn;
    assert DEBATE_FIELDS[0] == ("bull_history", "research_bull", "Bull Researcher");
    assert DEBATE_FIELDS[1] == ("bear_history", "research_bear", "Bear Researcher");
    assert DEBATE_FIELDS[2] == ("judge_decision", "research_manager", "Research Manager");
  }

  lemma RiskArguers(d: Option<Debate>, prev: Option<Debate>)
    ensures (set i | 0 <= i < |RISK_FIELDS| && NewIn(d, prev, RISK_FIELDS[i].0) :: RISK_FIELDS[i].2)
            == When(NewIn(d, prev, "aggressive_history"), {"Aggressive Analyst"})
               + When(NewIn(d, prev, "conservative_history"), {"Conservative Analyst"})
               + When(NewIn(d, prev, "neutral_history"), {"Neutral Analyst"})
  {
    hide NewIn;
    assert RISK_FIELDS[0] == ("aggressive_history", "risk_aggressive", "Aggressive Analyst");
    assert RISK_FIELDS[1] == ("conservative_history", "risk_conservative", "Conservative Analyst");
    assert RISK_FIELDS[2] == ("neutral_history", "risk_neutral", "Neutral Analyst");
  }

  lemma RiskAgents()
    ensures (set a | a in RISK_AGENTS)
            == {"Aggressive Analyst", "Conservative Analyst", "Neutral Analyst", "Bull Analyst", "Bear Analyst"}
  {
    assert RISK_AGENTS[0] == "Aggressive Analyst" && RISK_AGENTS[1] == "Conservative Analyst";
    assert RISK_AGENTS[2] == "Neutral Analyst" && RISK_AGENTS[3] == "Bull Analyst" && RISK_AGENTS[4] == "Bear Analyst";
  }

  lemma RiskJudged(text: string)
    ensures Acts([Show("portfolio_manager", text, false)] + FinishAll(RISK_AGENTS) + [Start("Portfolio Manager")],
                 {"Aggressive Analyst", "Conservative Analyst", "Neutral Analyst", "Bull Analyst", "Bear Analyst"},
                 {"Portfolio Manager"})
  {
    hide Finished, Started, FinishAll;
    FinishAllActs(RISK_AGENTS);
    RiskAgents();
    var show := [Show("portfolio_manager", text, false)];
    ActsOfOne(Show("portfolio_manager", text, false));
    ActsOfOne(Start("Portfolio Manager"));
    ActsConcat(show, FinishAll(RISK_AGENTS));
    ActsConcat(show + FinishAll(RISK_AGENTS), [Start("Portfolio Manager")]);
  }

  lemma RiskActs(mode: Mode, d: Option<Debate>, prev: Option<Debate>)
    ensures Acts(RiskScript(mode, d, prev),
                 When(!mode.quickTrade && NewIn(d, prev, "judge_decision"),
                      {"Aggressive Analyst", "Conservative Analyst", "Neutral Analyst", "Bull Analyst",
                       "Bear Analyst"}),
                 When(!mode.quickTrade,
                      When(NewIn(d, prev, "aggressive_history"), {"Aggressive Analyst"})
                      + When(NewIn(d, prev, "conservative_history"), {"Conservative Analyst"})
                      + When(NewIn(d, prev, "neutral_history"), {"Neutral Analyst"})
                      + When(NewIn(d, prev, "judge_decision"), {"Portfolio Manager"})))
  {
    SameDebateIsNotNew(prev, "judge_decision");
    SameDebateIsNotNew(prev, "aggressive_history");
    SameDebateIsNotNew(prev, "conservative_history");
    SameDebateIsNotNew(prev, "neutral_history");
    hide NewIn, Finished, Started, FieldScript, FinishAll, TextOf;
    if d.None? || d == prev || mode.quickTrade {
      ActsOfNothing();
    } else {
      FieldsAct(RISK_FIELDS, d, prev);
      RiskArguers(d, prev);
      RiskJudged(TextOf(d, "judge_decision"));
      ActsOfNothing();
      ActsConcat(FieldScript(RISK_FIELDS, d, prev),
                 [Show("portfolio_manager", TextOf(d, "judge_decision"), false)] + FinishAll(RISK_AGENTS)
                 + [Start("Portfolio Manager")]);
      ActsConcat(FieldScript(RISK_FIELDS, d, prev), []);
    }
  }

  lemma DecisionActs(mode: Mode, c: Chunk, prev: string)
    ensures Acts(DecisionScript(mode, c, prev), When(!mode.quickTrade && NewDecision(c, prev), {"Portfolio Manager"}),
                 When(!mode.quickTrade && NewDecision(c, prev), {"Execution Monitor"}))
  {
    hide NewDecision, Normalize, Acts;
    ActsOfNothing();
    ActsOfShow("final_decision", Normalize(c.decision));
    ShowFinishStart("portfolio_manager", Normalize(c.decision), "Portfolio Manager", "Execution Monitor");
  }

  lemma ActsOfShow(section: string, text: string)
    ensures Acts([Show(section, text, false)], {}, {})
  {
    ActsOfOne(Show(section, text, false));
  }

  // ---------------------------------------------------------------------------------
  // The memory of a run
  // ---------------------------------------------------------------------------------

  /** What the parser remembers is what the snapshots last said. */
  ghost predicate Recalls(mode: Mode, m: Memory, before: seq<Chunk>) {
    && (forall i :: 0 <= i < |ReportFields(mode)| ==>
          Get(m.reports, ReportFields(mode)[i].0) == LastReportText(ReportFields(mode)[i].0, before))
    && (forall src :: Remembered(src, m) == LastText(src, before))
    && m.debate == LastDebate(RESEARCH, before)
    && (!mode.quickTrade ==> m.risk == LastDebate(RISK, before))
    && m.decision == LastDecision(before)
    && m.count == CountAfterAll(0, before)
  }

  lemma RunRecalls(mode: Mode, next: Option<nat>, before: seq<Chunk>)
    ensures var st := ParseAll(Initial(mode, next), before).0;
            st.mode == mode && Recalls(mode, st.memory, before)
  {
    AnalystFields(mode);
    var s := ReportFields(mode)[0].1;
    ClientHoldsNewestReport(mode, next, before, s);
    forall src { ClientHoldsLastText(mode, next, before, src); }
    ClientJoinsChanges(mode, next, before, RESEARCH);
    ClientHoldsDecisions(mode, next, before);
    RunSpeaksProcessed(Initial(mode, next), before);
    hide ParseAll, ReportFields, BranchOf, Get, LastReportText, Remembered, LastText, LastDebate, LastDecision;
  }

  lemma ReportsRecalled(mode: Mode, m: Memory, before: seq<Chunk>, c: Chunk)
    requires Recalls(mode, m, before)
    ensures NewReporters(ReportFields(mode), c.reports, m.reports) == Reporting(mode, before, c)
  {
    hide Strip, Get, LastReportText, Remembered, LastText, LastDebate, LastDecision, CountAfterAll, ReportFields;
    var fields := ReportFields(mode);
    forall i | 0 <= i < |fields|
      ensures NewReport(c.reports, m.reports, fields[i].0) <==> ReportChanges(fields[i].0, before, c)
    {
    }
    ReportingByField(mode, before, c);
    hide NewReport, ReportChanges, Reporting, Recalls;
    assert NewReporters(fields, c.reports, m.reports) == ReportingOf(fields, |fields|, before, c);
  }

  /** The agents of the first `n` fields whose report changed. */
  function ReportingOf(fields: seq<Field>, n: nat, before: seq<Chunk>, c: Chunk): set<Agent>
    requires n <= |fields|
  {
    set i | 0 <= i < n && ReportChanges(fields[i].0, before, c) :: fields[i].2
  }

  lemma ReportingOfNext(fields: seq<Field>, n: nat, before: seq<Chunk>, c: Chunk)
    requires n < |fields|
    ensures ReportingOf(fields, 0, before, c) == {}
    ensures ReportingOf(fields, n + 1, before, c)
            == ReportingOf(fields, n, before, c) + When(ReportChanges(fields[n].0, before, c), {fields[n].2})
  {
    hide ReportChanges;
  }

  lemma ReportingByField(mode: Mode, before: seq<Chunk>, c: Chunk)
    ensures ReportingOf(ReportFields(mode), |ReportFields(mode)|, before, c) == Reporting(mode, before, c)
  {
    hide ReportChanges, ReportingOf, When;
    var fields := ReportFields(mode);
    ReportingOfNext(fields, 0, before, c);
    ReportingOfNext(fields, 1, before, c);
    ReportingOfNext(fields, 2, before, c);
    ReportingOfNext(fields, 3, before, c);
    if mode.crypto {
      ReportingOfNext(fields, 4, before, c);
      ReportingOfNext(fields, 5, before, c);
      assert fields[0] == ("market_report", "analyst_crypto_technical", "Technical Analyst");
      assert fields[1] == ("derivatives_report", "analyst_crypto_derivatives", "Derivatives Analyst");
      assert fields[2] == ("fundamentals_report", "analyst_crypto_derivatives", "Derivatives Analyst");
      assert fields[3] == ("news_report", "analyst_crypto_news", "News Analyst");
      assert fields[4] == ("crypto_fundamentals_report", "analyst_crypto_fundamentals", "Fundamentals Analyst");
      assert fields[5] == ("sentiment_report", "analyst_crypto_social", "Social Analyst");
    } else {
      assert fields[0] == ("market_report", "analyst_market", "Market Analyst");
      assert fields[1] == ("sentiment_report", "analyst_social", "Social Analyst");
      assert fields[2] == ("news_report", "analyst_news", "News Analyst");
      assert fields[3] == ("fundamentals_report", "analyst_fundamentals", "Fundamentals Analyst");
    }
  }

  lemma ResultsRecalled(mode: Mode, m: Memory, before: seq<Chunk>, c: Chunk)
    requires Recalls(mode, m, before)
    ensures Normalize(c.trader) != "" && Normalize(c.trader) != m.trader <==> SourceChanges(TraderPlan, before, c)
    ensures NewText(c.compliance, m.compliance) <==> SourceChanges(Compliance, before, c)
    ensures NewText(c.riskManager, m.riskManager) <==> SourceChanges(RiskManager, before, c)
    ensures NewText(c.confluence, m.confluence) <==> SourceChanges(Confluence, before, c)
    ensures NewText(c.executionNotes, m.executionNotes) <==> SourceChanges(Execution, before, c)
    ensures NewDecision(c, m.decision) <==> DecisionChanges(before, c)
  {
    hide Strip, Normalize, Get, LastReportText, LastText, LastDebate, LastDecision, CountAfterAll, ReportFields;
    assert m.trader == Remembered(TraderPlan, m) && m.compliance == Remembered(Compliance, m);
    assert m.riskManager == Remembered(RiskManager, m) && m.confluence == Remembered(Confluence, m);
    assert m.executionNotes == Remembered(Execution, m);
  }

  lemma DebatesRecalled(mode: Mode, m: Memory, before: seq<Chunk>, c: Chunk, field: string)
    requires Recalls(mode, m, before)
    ensures NewIn(c.debate, m.debate, field) <==> DebateChanges(RESEARCH, field, before, c)
    ensures !mode.quickTrade ==> (NewIn(c.risk, m.risk, field) <==> DebateChanges(RISK, field, before, c))
  {
    hide TextOf, Get, LastReportText, Remembered, LastText, LastDebate, LastDecision, CountAfterAll, ReportFields;
  }

  // ---------------------------------------------------------------------------------
  // The statuses of a chunk
  // ---------------------------------------------------------------------------------

  lemma EarlyActs(mode: Mode, m: Memory, before: seq<Chunk>, c: Chunk)
    requires Recalls(mode, m, before)
    ensures Acts(EarlyScript(mode, m, c),
                 Reporting(mode, before, c)
                 + When(DebateChanges(RESEARCH, "judge_decision", before, c),
                        {"Bull Researcher", "Bear Researcher", "Research Manager"})
                 + When(SourceChanges(TraderPlan, before, c), {"Trader"})
                 + When(SourceChanges(Compliance, before, c), {"Compliance Officer"})
                 + When(SourceChanges(RiskManager, before, c), {"Risk Manager"}),
                 When(DebateChanges(RESEARCH, "bull_history", before, c), {"Bull Researcher"})
                 + When(DebateChanges(RESEARCH, "bear_history", before, c), {"Bear Researcher"})
                 + When(DebateChanges(RESEARCH, "judge_decision", before, c), {"Research Manager", "Trader"})
                 + When(SourceChanges(TraderPlan, before, c),
                        {if mode.quickTrade then "Risk Manager" else "Compliance Officer"}))
  {
    AnalystFields(mode);
    ReportsAct(ReportFields(mode), c.reports, m.reports);
    ReportsRecalled(mode, m, before, c);
    DebatesRecalled(mode, m, before, c, "bull_history");
    DebatesRecalled(mode, m, before, c, "bear_history");
    DebatesRecalled(mode, m, before, c, "judge_decision");
    DebateActs(c.debate, m.debate);
    ResultsRecalled(mode, m, before, c);
    TraderActs(mode, Normalize(c.trader), m.trader);
    ResultActs("Compliance Officer", "compliance", c.compliance, m.compliance);
    ResultActs("Risk Manager", "risk_manager", c.riskManager, m.riskManager);
    hide Finished, Started, ReportScript, DebateScript, TraderScript, ResultScript, Normalize, ReportFields, Recalls;
    hide NewText, NewIn, NewReporters, DebateChanges, SourceChanges, Reporting, BranchOf, When;
    var (r, d) := (ReportScript(ReportFields(mode), c.reports, m.reports), DebateScript(c.debate, m.debate));
    var t := TraderScript(mode, Normalize(c.trader), m.trader);
    var o := ResultScript("Compliance Officer", "compliance", c.compliance, m.compliance);
    var k := ResultScript("Risk Manager", "risk_manager", c.riskManager, m.riskManager);
    FiveAct(r, d, t, o, k);
  }

  lemma FiveAct(a: seq<Action>, b: seq<Action>, c: seq<Action>, d: seq<Action>, e: seq<Action>)
    requires Started(a) == {} && Started(d) == {} && Started(e) == {}
    ensures Acts(a + b + c + d + e, Finished(a) + Finished(b) + Finished(c) + Finished(d) + Finished(e),
                 Started(b) + Started(c))
  {
    ActsConcat(a, b);
    ActsConcat(a + b, c);
    ActsConcat(a + b + c, d);
    ActsConcat(a + b + c + d, e);
    hide Finished, Started;
  }

  lemma FourAct(a: seq<Action>, b: seq<Action>, c: seq<Action>, d: seq<Action>)
    requires Started(d) == {}
    ensures Acts(a + b + c + d, Finished(a) + Finished(b) + Finished(c) + Finished(d),
                 Started(a) + Started(b) + Started(c))
  {
    ActsConcat(a, b);
    ActsConcat(a + b, c);
    ActsConcat(a + b + c, d);
    hide Finished, Started;
  }

  lemma LateActs(mode: Mode, m: Memory, before: seq<Chunk>, c: Chunk)
    requires Recalls(mode, m, before)
    ensures Acts(LateScript(mode, m, c),
                 When(SourceChanges(Confluence, before, c), {"Confluence Checker"})
                 + When(!mode.quickTrade && DebateChanges(RISK, "judge_decision", before, c),
                        {"Aggressive Analyst", "Conservative Analyst", "Neutral Analyst", "Bull Analyst",
                         "Bear Analyst"})
                 + When(!mode.quickTrade && DecisionChanges(before, c), {"Portfolio Manager"})
                 + When(SourceChanges(Execution, before, c), {"Execution Monitor"}),
                 When(SourceChanges(Confluence, before, c), {"Bull Researcher", "Bear Researcher"})
                 + When(!mode.quickTrade,
                        When(DebateChanges(RISK, "aggressive_history", before, c), {"Aggressive Analyst"})
                        + When(DebateChanges(RISK, "conservative_history", before, c), {"Conservative Analyst"})
                        + When(DebateChanges(RISK, "neutral_history", before, c), {"Neutral Analyst"})
                        + When(DebateChanges(RISK, "judge_decision", before, c), {"Portfolio Manager"}))
                 + When(!mode.quickTrade && DecisionChanges(before, c), {"Execution Monitor"}))
  {
    DebatesRecalled(mode, m, before, c, "aggressive_history");
    DebatesRecalled(mode, m, before, c, "conservative_history");
    DebatesRecalled(mode, m, before, c, "neutral_history");
    DebatesRecalled(mode, m, before, c, "judge_decision");
    ResultsRecalled(mode, m, before, c);
    ConfluenceActs(c.confluence, m.confluence);
    RiskActs(mode, c.risk, m.risk);
    DecisionActs(mode, c, m.decision);
    ResultActs("Execution Monitor", "execution_monitor", c.executionNotes, m.executionNotes);
    hide Finished, Started, ConfluenceScript, RiskScript, DecisionScript, ResultScript, Normalize, Recalls;
    hide NewText, NewIn, NewDecision, DebateChanges, SourceChanges, DecisionChanges, When;
    var (f, r) := (ConfluenceScript(c.confluence, m.confluence), RiskScript(mode, c.risk, m.risk));
    var d := DecisionScript(mode, c, m.decision);
    var e := ResultScript("Execution Monitor", "execution_monitor", c.executionNotes, m.executionNotes);
    FourAct(f, r, d, e);
  }

  lemma ChunkActs(mode: Mode, m: Memory, before: seq<Chunk>, c: Chunk)
    requires Recalls(mode, m, before)
    ensures Acts(Script(mode, m, c), Completes(mode, before, c), Starts(mode, before, c))
  {
    EarlyActs(mode, m, before, c);
    LateActs(mode, m, before, c);
    hide Finished, Started, EarlyScript, LateScript, Recalls;
    hide DebateChanges, SourceChanges, DecisionChanges, Reporting, When;
    ActsConcat(EarlyScript(mode, m, c), LateScript(mode, m, c));
  }

  lemma {:induction false} SeenIsBegun(mode: Mode, next: Option<nat>, chunks: seq<Chunk>)
    ensures ParseAll(Initial(mode, next), chunks).0.seen == Begun(mode, chunks)
  {
    hide Completes, Starts, Play, Script, Remember, MessageEvents, Advance, Finished, Started, Recalls;
    if chunks != [] {
      var (before, c) := (chunks[..|chunks| - 1], chunks[|chunks| - 1]);
      var st := ParseAll(Initial(mode, next), before).0;
      SeenIsBegun(mode, next, before);
      RunRecalls(mode, next, before);
      ChunkActs(mode, st.memory, before, c);
      PlayStatuses(st.seen, Script(mode, st.memory, c));
    }
  }

  /** Over every run, in every mode and for every asset type: a chunk completes an agent if and only if
      the text that is its result changed in the chunk. It announces an agent if and only if its last
      new message names the agent, or a change in it sets the agent to work, or it completes an agent
      that no chunk before set to work or completed. */
  lemma ChunkSaysExactly(mode: Mode, next: Option<nat>, before: seq<Chunk>, c: Chunk, a: Agent)
    ensures var events := Parse(ParseAll(Initial(mode, next), before).0, c).1;
            && (Completed(a) in events <==> a in Completes(mode, before, c))
            && (InProgress(a) in events <==>
                  || NamedLast(before, c, a)
                  || a in Starts(mode, before, c)
                  || (a in Completes(mode, before, c) && a !in Begun(mode, before)))
  {
    var st := ParseAll(Initial(mode, next), before).0;
    RunRecalls(mode, next, before);
    BranchesSay(mode, next, before, c);
    HeadlineNames(before, c, a);
    ParsedEvents(st, c);
    hide *;
    assert !Spoken(Completed(a)) && !Spoken(InProgress(a)) by { NotSpoken(a); }
    RecallsCount(mode, st.memory, before);
  }

  lemma NotSpoken(a: Agent)
    ensures !Spoken(Completed(a)) && !Spoken(InProgress(a))
  {
  }

  lemma RecallsCount(mode: Mode, m: Memory, before: seq<Chunk>)
    requires Recalls(mode, m, before)
    ensures m.count == CountAfterAll(0, before)
  {
  }

  /** What the branches of a chunk say. */
  lemma BranchesSay(mode: Mode, next: Option<nat>, before: seq<Chunk>, c: Chunk)
    ensures var st := ParseAll(Initial(mode, next), before).0;
            var played := Play(st.seen, Script(st.mode, st.memory, c)).1;
            && (forall a :: Completed(a) in played <==> a in Completes(mode, before, c))
            && (forall a :: InProgress(a) in played <==>
                  || a in Starts(mode, before, c)
                  || (a in Completes(mode, before, c) && a !in Begun(mode, before)))
  {
    var st := ParseAll(Initial(mode, next), before).0;
    RunRecalls(mode, next, before);
    SeenIsBegun(mode, next, before);
    ChunkActs(mode, st.memory, before, c);
    PlayStatuses(st.seen, Script(mode, st.memory, c));
    hide ParseAll, Play, Script, Completes, Starts, Begun, Finished, Started, Recalls;
  }

  /** The statuses of a chunk are those of the headline and of the script. */
  lemma ParsedEvents(st: State, c: Chunk)
    ensures var events := Parse(st, c).1;
            var (line, played) := (Headline(NewMessages(st.memory.count, c.messages)),
                                   Play(st.seen, Script(st.mode, st.memory, c)).1);
            forall e :: !Spoken(e) ==> (e in events <==> e in line || e in played)
  {
    hide Play, Script, Remember, Advance, NewMessages, Headline, MessageEvents;
    var ms := NewMessages(st.memory.count, c.messages);
    MessageEventsAreSpoken(ms, st.next);
    var played := Play(st.seen, Script(st.mode, st.memory, c)).1;
    assert forall e :: (e in Headline(ms) + MessageEvents(ms, st.next) + played
                        <==> e in Headline(ms) || e in MessageEvents(ms, st.next) || e in played);
  }

  lemma HeadlineNames(before: seq<Chunk>, c: Chunk, a: Agent)
    ensures var line := Headline(NewMessages(CountAfterAll(0, before), c.messages));
            && (InProgress(a) in line <==> NamedLast(before, c, a))
            && Completed(a) !in line
  {
    hide CountAfterAll;
    var (n, ms) := (CountAfterAll(0, before), NewMessages(CountAfterAll(0, before), c.messages));
    if ms != [] {
      assert ms[|ms| - 1] == c.messages.items[|c.messages.items| - 1];
    }
  }

  // ---------------------------------------------------------------------------------
  // The stages of the other mode
  // ---------------------------------------------------------------------------------

  /** The agents but the two that the trader's plan may set to work. */
  function Others(): set<Agent> {
    {"Technical Analyst", "Derivatives Analyst", "News Analyst", "Fundamentals Analyst", "Social Analyst",
     "Market Analyst", "Bull Researcher", "Bear Researcher", "Research Manager", "Trader", "Confluence Checker",
     "Aggressive Analyst", "Conservative Analyst", "Neutral Analyst", "Bull Analyst", "Bear Analyst",
     "Portfolio Manager", "Execution Monitor"}
  }

  lemma NotOthers()
    ensures "Risk Manager" !in Others() && "Compliance Officer" !in Others() && "Risk Manager" != "Compliance Officer"
  {
    assert "Risk Manager"[1] == 'i' && "Compliance Officer"[1] == 'o' && "Compliance Officer"[11] == 'O';
    assert "Social Analyst"[2] == 'c' && "Confluence Checker"[2] == 'n' && "Conservative Analyst"[2] == 'n';
    assert "Portfolio Manager"[2] == 'r';
  }

  lemma WhenWithin(changed: bool, agents: set<Agent>)
    requires agents <= Others()
    ensures When(changed, agents) <= Others()
  {
    hide Others;
  }

  lemma ReportingIsOthers(mode: Mode, before: seq<Chunk>, c: Chunk)
    ensures Reporting(mode, before, c) <= Others()
  {
    hide When, ReportChanges;
    WhenWithin(ReportChanges("market_report", before, c), {"Technical Analyst"});
    WhenWithin(ReportChanges("market_report", before, c), {"Market Analyst"});
    WhenWithin(ReportChanges("derivatives_report", before, c), {"Derivatives Analyst"});
    WhenWithin(ReportChanges("fundamentals_report", before, c), {"Derivatives Analyst"});
    WhenWithin(ReportChanges("fundamentals_report", before, c), {"Fundamentals Analyst"});
    WhenWithin(ReportChanges("crypto_fundamentals_report", before, c), {"Fundamentals Analyst"});
    WhenWithin(ReportChanges("news_report", before, c), {"News Analyst"});
    WhenWithin(ReportChanges("sentiment_report", before, c), {"Social Analyst"});
    hide Others;
  }

  lemma CompletesOthers(mode: Mode, before: seq<Chunk>, c: Chunk)
    ensures Completes(mode, before, c)
            <= Others() + When(SourceChanges(Compliance, before, c), {"Compliance Officer"})
               + When(SourceChanges(RiskManager, before, c), {"Risk Manager"})
  {
    ReportingIsOthers(mode, before, c);
    hide When, SourceChanges, DebateChanges, DecisionChanges, Reporting;
    WhenWithin(DebateChanges(RESEARCH, "judge_decision", before, c),
               {"Bull Researcher", "Bear Researcher", "Research Manager"});
    WhenWithin(SourceChanges(TraderPlan, before, c), {"Trader"});
    WhenWithin(SourceChanges(Confluence, before, c), {"Confluence Checker"});
    WhenWithin(!mode.quickTrade && DebateChanges(RISK, "judge_decision", before, c),
               {"Aggressive Analyst", "Conservative Analyst", "Neutral Analyst", "Bull Analyst", "Bear Analyst"});
    WhenWithin(!mode.quickTrade && DecisionChanges(before, c), {"Portfolio Manager"});
    WhenWithin(SourceChanges(Execution, before, c), {"Execution Monitor"});
    hide Others;
  }

  lemma StartsOthers(mode: Mode, before: seq<Chunk>, c: Chunk)
    ensures Starts(mode, before, c)
            <= Others() + When(SourceChanges(TraderPlan, before, c),
                               {if mode.quickTrade then "Risk Manager" else "Compliance Officer"})
  {
    hide When, SourceChanges, DebateChanges, DecisionChanges;
    WhenWithin(DebateChanges(RESEARCH, "bull_history", before, c), {"Bull Researcher"});
    WhenWithin(DebateChanges(RESEARCH, "bear_history", before, c), {"Bear Researcher"});
    WhenWithin(DebateChanges(RESEARCH, "judge_decision", before, c), {"Research Manager", "Trader"});
    WhenWithin(SourceChanges(Confluence, before, c), {"Bull Researcher", "Bear Researcher"});
    WhenWithin(!mode.quickTrade && DecisionChanges(before, c), {"Execution Monitor"});
    WhenWithin(DebateChanges(RISK, "aggressive_history", before, c), {"Aggressive Analyst"});
    WhenWithin(DebateChanges(RISK, "conservative_history", before, c), {"Conservative Analyst"});
    WhenWithin(DebateChanges(RISK, "neutral_history", before, c), {"Neutral Analyst"});
    WhenWithin(DebateChanges(RISK, "judge_decision", before, c), {"Portfolio Manager"});
    hide Others;
    WhenWithin(!mode.quickTrade,
               When(DebateChanges(RISK, "aggressive_history", before, c), {"Aggressive Analyst"})
               + When(DebateChanges(RISK, "conservative_history", before, c), {"Conservative Analyst"})
               + When(DebateChanges(RISK, "neutral_history", before, c), {"Neutral Analyst"})
               + When(DebateChanges(RISK, "judge_decision", before, c), {"Portfolio Manager"}));
  }

  /** Over every run the two stages behind the trader are announced by the trader's plan only in their own
      mode, the risk manager in a quick trade and the compliance officer otherwise; in the other mode
      only a result of their own or a message announces them. */
  lemma StageOfOtherModeIsSilent(mode: Mode, next: Option<nat>, before: seq<Chunk>, c: Chunk)
    ensures var events := Parse(ParseAll(Initial(mode, next), before).0, c).1;
            && (!mode.quickTrade && InProgress("Risk Manager") in events ==>
                  SourceChanges(RiskManager, before, c) || NamedLast(before, c, "Risk Manager"))
            && (mode.quickTrade && InProgress("Compliance Officer") in events ==>
                  SourceChanges(Compliance, before, c) || NamedLast(before, c, "Compliance Officer"))
  {
    ChunkSaysExactly(mode, next, before, c, "Risk Manager");
    ChunkSaysExactly(mode, next, before, c, "Compliance Officer");
    CompletesOthers(mode, before, c);
    StartsOthers(mode, before, c);
    NotOthers();
    hide Others, Completes, Starts, SourceChanges, NamedLast, Parse, ParseAll, Begun;
  }

  // ---------------------------------------------------------------------------------
  // In which order
  // ---------------------------------------------------------------------------------

  ghost predicate ComesBefore(events: seq<Event>, e: Event, f: Event) {
    exists p, q :: 0 <= p < q < |events| && events[p] == e && events[q] == f
  }

  /** The event an action is for. */
  function Mark(a: Action): Event {
    match a
    case Start(agent) => InProgress(agent)
    case Finish(agent) => Completed(agent)
    case Show(section, content, append) => Report(section, content, append)
  }

  /** The script does one action and later the other. */
  ghost predicate Does(script: seq<Action>, x: Action, y: Action) {
    exists i, j :: 0 <= i < j < |script| && script[i] == x && script[j] == y
  }

  lemma DoesWithin(before: seq<Action>, script: seq<Action>, after: seq<Action>, x: Action, y: Action)
    requires Does(script, x, y)
    ensures Does(before + script + after, x, y)
  {
    var i, j :| 0 <= i < j < |script| && script[i] == x && script[j] == y;
    var all := before + script + after;
    assert all[|before| + i] == x && all[|before| + j] == y;
  }

  lemma {:induction false} PlayPrefix(seen: set<Agent>, script: seq<Action>, k: nat)
    requires k <= |script|
    ensures Play(seen, script[..k]).1 <= Play(seen, script).1
  {
    hide Do;
    if k < |script| {
      var n := |script| - 1;
      PlayPrefix(seen, script[..n], k);
      assert script[..n][..k] == script[..k];
    } else {
      assert script[..k] == script;
    }
  }

  /** Playing an action ends with its event. */
  lemma PlayEnds(seen: set<Agent>, script: seq<Action>)
    requires script != []
    ensures var (n, events) := (|Play(seen, script[..|script| - 1]).1|, Play(seen, script).1);
            n < |events| && events[|events| - 1] == Mark(script[|script| - 1])
  {
  }

  /** The event of action `i` is the last one of the script up to it, and stays where it is. */
  lemma PlayHas(seen: set<Agent>, script: seq<Action>, i: nat)
    requires i < |script|
    ensures var (k, events) := (|Play(seen, script[..i + 1]).1|, Play(seen, script).1);
            |Play(seen, script[..i]).1| < k <= |events| && events[k - 1] == Mark(script[i])
  {
    hide Play, Mark;
    PlayEnds(seen, script[..i + 1]);
    PlayPrefix(seen, script, i + 1);
    assert script[..i + 1][..i] == script[..i];
  }

  lemma PlayDoes(seen: set<Agent>, script: seq<Action>, x: Action, y: Action)
    requires Does(script, x, y)
    ensures ComesBefore(Play(seen, script).1, Mark(x), Mark(y))
  {
    var i, j :| 0 <= i < j < |script| && script[i] == x && script[j] == y;
    hide Play, Mark;
    PlayHas(seen, script, i);
    PlayHas(seen, script, j);
    PlayPrefix(seen, script[..j], i + 1);
    assert script[..j][..i + 1] == script[..i + 1];
    var (p, q) := (|Play(seen, script[..i + 1]).1| - 1, |Play(seen, script[..j + 1]).1| - 1);
    assert p < q;
  }

  lemma TraderDoes(mode: Mode, plan: string, prev: string)
    requires plan != "" && plan != prev
    ensures Does(TraderScript(mode, plan, prev), Show("trader", plan, false), Finish("Trader"))
    ensures Does(TraderScript(mode, plan, prev), Finish("Trader"),
                 Start(if mode.quickTrade then "Risk Manager" else "Compliance Officer"))
  {
    var script := TraderScript(mode, plan, prev);
    assert script[0] == Show("trader", plan, false) && script[1] == Finish("Trader");
    assert script[2] == Start(if mode.quickTrade then "Risk Manager" else "Compliance Officer");
  }

  lemma DebateDoes(d: Option<Debate>, prev: Option<Debate>, done: Agent)
    requires NewIn(d, prev, "judge_decision")
    requires done in ["Bull Researcher", "Bear Researcher", "Research Manager"]
    ensures Does(DebateScript(d, prev), Finish(done), Start("Trader"))
  {
    SameDebateIsNotNew(prev, "judge_decision");
    hide NewIn, FieldScript;
    var i :| 0 <= i < 3 && ["Bull Researcher", "Bear Researcher", "Research Manager"][i] == done;
    assert JUDGED[i] == Finish(done) && JUDGED[3] == Start("Trader");
    DoesWithin(FieldScript(DEBATE_FIELDS, d, prev), JUDGED, [], Finish(done), Start("Trader"));
    hide Does;
    assert FieldScript(DEBATE_FIELDS, d, prev) + JUDGED + [] == DebateScript(d, prev);
  }

  lemma ResultDoes(agent: Agent, section: string, text: Option<string>, prev: string)
    requires NewText(text, prev)
    ensures Does(ResultScript(agent, section, text, prev), Finish(agent), Show(section, Strip(text.value), false))
  {
    hide Strip;
    var script := ResultScript(agent, section, text, prev);
    assert script[0] == Finish(agent) && script[1] == Show(section, Strip(text.value), false);
  }

  lemma ConfluenceDoes(text: Option<string>, prev: string, next: Agent)
    requires NewText(text, prev) && next in ["Bull Researcher", "Bear Researcher"]
    ensures var (script, shown) := (ConfluenceScript(text, prev), Show("confluence", Strip(text.value), false));
            Does(script, Finish("Confluence Checker"), shown) && Does(script, shown, Start(next))
  {
    hide Strip;
    var script := ConfluenceScript(text, prev);
    var i :| 0 <= i < 2 && ["Bull Researcher", "Bear Researcher"][i] == next;
    assert script[0] == Finish("Confluence Checker") && script[1] == Show("confluence", Strip(text.value), false);
    assert script[2 + i] == Start(next);
  }

  lemma {:induction false} FinishAllAt(agents: seq<Agent>, i: nat)
    requires i < |agents|
    ensures |FinishAll(agents)| == |agents| && FinishAll(agents)[i] == Finish(agents[i])
  {
    if i < |agents| - 1 {
      FinishAllAt(agents[..|agents| - 1], i);
    } else if |agents| > 1 {
      FinishAllAt(agents[..|agents| - 1], 0);
    }
  }

  lemma RiskDoes(mode: Mode, d: Option<Debate>, prev: Option<Debate>, done: Agent)
    requires NewIn(d, prev, "judge_decision") && !mode.quickTrade && done in RISK_AGENTS
    ensures var shown := Show("portfolio_manager", TextOf(d, "judge_decision"), false);
            && Does(RiskScript(mode, d, prev), shown, Finish(done))
            && Does(RiskScript(mode, d, prev), Finish(done), Start("Portfolio Manager"))
  {
    SameDebateIsNotNew(prev, "judge_decision");
    hide NewIn, FieldScript, TextOf;
    var i :| 0 <= i < |RISK_AGENTS| && RISK_AGENTS[i] == done;
    FinishAllAt(RISK_AGENTS, i);
    hide FinishAll;
    var shown := Show("portfolio_manager", TextOf(d, "judge_decision"), false);
    var judged := [shown] + FinishAll(RISK_AGENTS) + [Start("Portfolio Manager")];
    assert judged[0] == shown && judged[i + 1] == Finish(done) && judged[6] == Start("Portfolio Manager");
    DoesWithin(FieldScript(RISK_FIELDS, d, prev), judged, [], shown, Finish(done));
    DoesWithin(FieldScript(RISK_FIELDS, d, prev), judged, [], Finish(done), Start("Portfolio Manager"));
    hide Does;
    assert FieldScript(RISK_FIELDS, d, prev) + judged + [] == RiskScript(mode, d, prev);
  }

  lemma DecisionDoes(mode: Mode, c: Chunk, prev: string)
    requires NewDecision(c, prev) && !mode.quickTrade
    ensures var (script, shown) := (DecisionScript(mode, c, prev),
                                    Show("portfolio_manager", Normalize(c.decision), false));
            && Does(script, shown, Finish("Portfolio Manager"))
            && Does(script, Finish("Portfolio Manager"), Start("Execution Monitor"))
  {
    hide Normalize;
    var script := DecisionScript(mode, c, prev);
    assert script[0] == Show("portfolio_manager", Normalize(c.decision), false);
    assert script[1] == Finish("Portfolio Manager") && script[2] == Start("Execution Monitor");
  }

  lemma ReportsGrow(fields: seq<Field>, chunk: map<string, string>, prev: map<string, string>)
    requires fields != [] && DistinctNames(fields)
    ensures var (n, all) := (|fields| - 1, ReportScript(fields, chunk, prev));
            var init := ReportScript(fields[..n], chunk, prev);
            && DistinctNames(fields[..n]) && init <= all
            && (NewReport(chunk, prev, fields[n].0) ==>
                  all == init + [Finish(fields[n].2), Show(fields[n].1, Strip(Get(chunk, fields[n].0)), false)])
  {
    var n := |fields| - 1;
    ReportTurn(fields, n, chunk, prev);
    OtherFieldsStay(fields[..n], chunk, prev, fields[n].0);
    hide ReportScript, LatestReports, Strip, Get;
    assert fields[..n + 1] == fields;
  }

  lemma {:induction false} ReportsDo(
    fields: seq<Field>, i: nat, chunk: map<string, string>, prev: map<string, string>)
    requires i < |fields| && DistinctNames(fields) && NewReport(chunk, prev, fields[i].0)
    ensures Does(ReportScript(fields, chunk, prev), Finish(fields[i].2),
                 Show(fields[i].1, Strip(Get(chunk, fields[i].0)), false))
    decreases |fields|
  {
    hide *;
    var n := |fields| - 1;
    var (init, all) := (ReportScript(fields[..n], chunk, prev), ReportScript(fields, chunk, prev));
    var (done, shown) := (Finish(fields[i].2), Show(fields[i].1, Strip(Get(chunk, fields[i].0)), false));
    ReportsGrow(fields, chunk, prev);
    if i < n {
      ReportsDo(fields[..n], i, chunk, prev);
      StartDoes(init, all, done, shown);
    } else {
      TwoDo(done, shown);
      DoesWithin(init, [done, shown], [], done, shown);
      assert init + [done, shown] + [] == all;
    }
  }

  lemma TwoDo(x: Action, y: Action)
    ensures Does([x, y], x, y)
  {
    assert [x, y][0] == x && [x, y][1] == y;
  }

  lemma {:induction false} FieldsDo(fields: seq<Field>, i: nat, d: Option<Debate>, prev: Option<Debate>)
    requires i < |fields| && NewIn(d, prev, fields[i].0)
    ensures Does(FieldScript(fields, d, prev), Start(fields[i].2), Show(fields[i].1, TextOf(d, fields[i].0), true))
    decreases |fields|
  {
    hide TextOf, NewIn;
    var n := |fields| - 1;
    var (init, all) := (FieldScript(fields[..n], d, prev), FieldScript(fields, d, prev));
    var (begun, shown) := (Start(fields[i].2), Show(fields[i].1, TextOf(d, fields[i].0), true));
    if i < n {
      FieldsDo(fields[..n], i, d, prev);
      DoesWithin([], init, all[|init|..], begun, shown);
      hide Does;
      assert [] + init + all[|init|..] == all;
    } else {
      assert all[|init|] == begun && all[|init| + 1] == shown;
    }
  }

  lemma HistoryField(h: History)
    requires h.Valid()
    ensures |DEBATE_FIELDS| == 3 == |RISK_FIELDS|
    ensures h.Field() == if h.Research? then DEBATE_FIELDS[h.index] else RISK_FIELDS[h.index]
  {
  }

  /** A debate's text is shown behind the announcement of who argues. */
  lemma HistoryDoes(mode: Mode, h: History, d: Option<Debate>, prev: Option<Debate>)
    requires h.Valid() && h.Shown(mode) && NewIn(d, prev, h.Field().0)
    ensures Does(if h.Research? then DebateScript(d, prev) else RiskScript(mode, d, prev), Start(h.Field().2),
                 Show(h.Field().1, TextOf(d, h.Field().0), true))
  {
    HistoryField(h);
    hide History.Field;
    SameDebateIsNotNew(prev, h.Field().0);
    var (begun, shown) := (Start(h.Field().2), Show(h.Field().1, TextOf(d, h.Field().0), true));
    FieldsDo(if h.Research? then DEBATE_FIELDS else RISK_FIELDS, h.index, d, prev);
    hide NewIn, FieldScript, FinishAll, TextOf, Does;
    if h.Research? {
      StartDoes(FieldScript(DEBATE_FIELDS, d, prev), DebateScript(d, prev), begun, shown);
    } else {
      StartDoes(FieldScript(RISK_FIELDS, d, prev), RiskScript(mode, d, prev), begun, shown);
    }
  }

  lemma StartDoes(first: seq<Action>, all: seq<Action>, x: Action, y: Action)
    requires first <= all && Does(first, x, y)
    ensures Does(all, x, y)
  {
    hide Does;
    DoesWithin([], first, all[|first|..], x, y);
    assert [] + first + all[|first|..] == all;
  }

  /** What a branch does, its chunk does. */
  lemma EarlyDoes(mode: Mode, m: Memory, c: Chunk, x: Action, y: Action)
    requires || Does(ReportScript(ReportFields(mode), c.reports, m.reports), x, y)
             || Does(DebateScript(c.debate, m.debate), x, y)
             || Does(TraderScript(mode, Normalize(c.trader), m.trader), x, y)
             || Does(ResultScript("Compliance Officer", "compliance", c.compliance, m.compliance), x, y)
             || Does(ResultScript("Risk Manager", "risk_manager", c.riskManager, m.riskManager), x, y)
    ensures Does(Script(mode, m, c), x, y)
  {
    hide Does, ReportScript, DebateScript, TraderScript, ResultScript, LateScript, Normalize, ReportFields;
    var (r, d) := (ReportScript(ReportFields(mode), c.reports, m.reports), DebateScript(c.debate, m.debate));
    var t := TraderScript(mode, Normalize(c.trader), m.trader);
    var o := ResultScript("Compliance Officer", "compliance", c.compliance, m.compliance);
    var k := ResultScript("Risk Manager", "risk_manager", c.riskManager, m.riskManager);
    var late := LateScript(mode, m, c);
    if Does(r, x, y) {
      DoesWithin([], r, d + t + o + k + late, x, y);
    } else if Does(d, x, y) {
      DoesWithin(r, d, t + o + k + late, x, y);
    } else if Does(t, x, y) {
      DoesWithin(r + d, t, o + k + late, x, y);
    } else if Does(o, x, y) {
      DoesWithin(r + d + t, o, k + late, x, y);
    } else {
      DoesWithin(r + d + t + o, k, late, x, y);
    }
    assert [] + r + (d + t + o + k + late) == Script(mode, m, c) && r + d + (t + o + k + late) == Script(mode, m, c);
    assert r + d + t + (o + k + late) == Script(mode, m, c) && r + d + t + o + (k + late) == Script(mode, m, c);
  }

  lemma LateDoes(mode: Mode, m: Memory, c: Chunk, x: Action, y: Action)
    requires || Does(ConfluenceScript(c.confluence, m.confluence), x, y)
             || Does(RiskScript(mode, c.risk, m.risk), x, y)
             || Does(DecisionScript(mode, c, m.decision), x, y)
             || Does(ResultScript("Execution Monitor", "execution_monitor", c.executionNotes, m.executionNotes), x, y)
    ensures Does(Script(mode, m, c), x, y)
  {
    hide Does, ConfluenceScript, RiskScript, DecisionScript, ResultScript, EarlyScript;
    var (f, r) := (ConfluenceScript(c.confluence, m.confluence), RiskScript(mode, c.risk, m.risk));
    var d := DecisionScript(mode, c, m.decision);
    var e := ResultScript("Execution Monitor", "execution_monitor", c.executionNotes, m.executionNotes);
    var early := EarlyScript(mode, m, c);
    if Does(f, x, y) {
      DoesWithin(early, f, r + d + e, x, y);
    } else if Does(r, x, y) {
      DoesWithin(early + f, r, d + e, x, y);
    } else if Does(d, x, y) {
      DoesWithin(early + f + r, d, e, x, y);
    } else {
      DoesWithin(early + f + r + d, e, [], x, y);
    }
    assert early + f + (r + d + e) == Script(mode, m, c) && early + f + r + (d + e) == Script(mode, m, c);
    assert early + f + r + d + e == Script(mode, m, c) && early + f + r + d + e + [] == Script(mode, m, c);
  }

  /** The agent whose result a text is. */
  function AgentOf(src: Source): Agent {
    match src
    case TraderPlan => "Trader"
    case Compliance => "Compliance Officer"
    case RiskManager => "Risk Manager"
    case Confluence => "Confluence Checker"
    case Execution => "Execution Monitor"
  }

  lemma ChunkDoes(mode: Mode, next: Option<nat>, before: seq<Chunk>, c: Chunk, x: Action, y: Action)
    requires Does(Script(mode, ParseAll(Initial(mode, next), before).0.memory, c), x, y)
    ensures ComesBefore(Parse(ParseAll(Initial(mode, next), before).0, c).1, Mark(x), Mark(y))
  {
    var st := ParseAll(Initial(mode, next), before).0;
    RunRecalls(mode, next, before);
    PlayDoes(st.seen, Script(mode, st.memory, c), x, y);
    hide ParseAll, Play, Script, Remember, Does, MessageEvents, Headline, NewMessages, Advance, Recalls;
    var ms := NewMessages(st.memory.count, c.messages);
    ComesBeforeWithin(Headline(ms) + MessageEvents(ms, st.next), Play(st.seen, Script(mode, st.memory, c)).1,
                      Mark(x), Mark(y));
  }

  lemma ComesBeforeWithin(quiet: seq<Event>, events: seq<Event>, e: Event, f: Event)
    requires ComesBefore(events, e, f)
    ensures ComesBefore(quiet + events, e, f)
  {
    var p, q :| 0 <= p < q < |events| && events[p] == e && events[q] == f;
    assert (quiet + events)[|quiet| + p] == e && (quiet + events)[|quiet| + q] == f;
  }

  /** A changed result is new to the parser. */
  lemma ResultIsNew(mode: Mode, next: Option<nat>, before: seq<Chunk>, c: Chunk)
    ensures var m := ParseAll(Initial(mode, next), before).0.memory;
            && (SourceChanges(TraderPlan, before, c) ==>
                  Normalize(c.trader) != "" && Normalize(c.trader) != m.trader)
            && (SourceChanges(Compliance, before, c) ==> NewText(c.compliance, m.compliance))
            && (SourceChanges(RiskManager, before, c) ==> NewText(c.riskManager, m.riskManager))
            && (SourceChanges(Confluence, before, c) ==> NewText(c.confluence, m.confluence))
            && (SourceChanges(Execution, before, c) ==> NewText(c.executionNotes, m.executionNotes))
            && (DecisionChanges(before, c) ==> NewDecision(c, m.decision))
  {
    var m := ParseAll(Initial(mode, next), before).0.memory;
    RunRecalls(mode, next, before);
    ResultsRecalled(mode, m, before, c);
    hide *;
  }

  lemma ResultTexts(c: Chunk)
    ensures c.compliance.Some? ==> TextIn(Compliance, c) == Strip(c.compliance.value)
    ensures c.riskManager.Some? ==> TextIn(RiskManager, c) == Strip(c.riskManager.value)
    ensures c.confluence.Some? ==> TextIn(Confluence, c) == Strip(c.confluence.value)
    ensures c.executionNotes.Some? ==> TextIn(Execution, c) == Strip(c.executionNotes.value)
  {
    hide Strip;
  }

  /** The events of a chunk of a run. */
  function Said(mode: Mode, next: Option<nat>, before: seq<Chunk>, c: Chunk): seq<Event> {
    Parse(ParseAll(Initial(mode, next), before).0, c).1
  }

  /** A changed plan is shown, then the trader is complete, then the next stage of the mode begins. */
  lemma PlanComesInOrder(mode: Mode, next: Option<nat>, before: seq<Chunk>, c: Chunk)
    requires SourceChanges(TraderPlan, before, c)
    ensures ComesBefore(Said(mode, next, before, c), Report("trader", Normalize(c.trader), false), Completed("Trader"))
    ensures ComesBefore(Said(mode, next, before, c), Completed("Trader"),
                        InProgress(if mode.quickTrade then "Risk Manager" else "Compliance Officer"))
  {
    var m := ParseAll(Initial(mode, next), before).0.memory;
    ResultIsNew(mode, next, before, c);
    hide ParseAll, Parse, Script, TraderScript, Normalize, Does, ComesBefore, SourceChanges, TextIn;
    var (shown, done) := (Show("trader", Normalize(c.trader), false), Finish("Trader"));
    var begun := Start(if mode.quickTrade then "Risk Manager" else "Compliance Officer");
    TraderDoes(mode, Normalize(c.trader), m.trader);
    EarlyDoes(mode, m, c, shown, done);
    EarlyDoes(mode, m, c, done, begun);
    ChunkDoes(mode, next, before, c, shown, done);
    ChunkDoes(mode, next, before, c, done, begun);
  }

  /** Any other changed result is shown once its agent is complete. */
  lemma ResultComesInOrder(mode: Mode, next: Option<nat>, before: seq<Chunk>, c: Chunk, src: Source)
    requires SourceChanges(src, before, c) && !src.TraderPlan?
    ensures ComesBefore(Said(mode, next, before, c), Completed(AgentOf(src)),
                        Report(SectionOf(src), TextIn(src, c), false))
  {
    var m := ParseAll(Initial(mode, next), before).0.memory;
    ResultIsNew(mode, next, before, c);
    ResultTexts(c);
    hide ParseAll, Parse, Script, ResultScript, ConfluenceScript, Strip, Does, ComesBefore, SourceChanges, TextIn;
    var (done, shown) := (Finish(AgentOf(src)), Show(SectionOf(src), TextIn(src, c), false));
    match src {
      case Compliance =>
        ResultDoes("Compliance Officer", "compliance", c.compliance, m.compliance);
        EarlyDoes(mode, m, c, done, shown);
      case RiskManager =>
        ResultDoes("Risk Manager", "risk_manager", c.riskManager, m.riskManager);
        EarlyDoes(mode, m, c, done, shown);
      case Confluence =>
        ConfluenceDoes(c.confluence, m.confluence, ["Bull Researcher", "Bear Researcher"][0]);
        LateDoes(mode, m, c, done, shown);
      case Execution =>
        ResultDoes("Execution Monitor", "execution_monitor", c.executionNotes, m.executionNotes);
        LateDoes(mode, m, c, done, shown);
    }
    ChunkDoes(mode, next, before, c, done, shown);
  }

  /** Behind a changed confluence summary both researchers are announced. */
  lemma ConfluenceComesFirst(mode: Mode, next: Option<nat>, before: seq<Chunk>, c: Chunk, researcher: Agent)
    requires SourceChanges(Confluence, before, c) && researcher in ["Bull Researcher", "Bear Researcher"]
    ensures ComesBefore(Said(mode, next, before, c), Report("confluence", TextIn(Confluence, c), false),
                        InProgress(researcher))
  {
    var m := ParseAll(Initial(mode, next), before).0.memory;
    ResultIsNew(mode, next, before, c);
    ResultTexts(c);
    hide ParseAll, Parse, Script, ConfluenceScript, Strip, Does, ComesBefore, SourceChanges, TextIn;
    var shown := Show("confluence", TextIn(Confluence, c), false);
    ConfluenceDoes(c.confluence, m.confluence, researcher);
    LateDoes(mode, m, c, shown, Start(researcher));
    ChunkDoes(mode, next, before, c, shown, Start(researcher));
  }

  /** A changed report is shown once its analyst is complete. */
  lemma AnalystComesInOrder(mode: Mode, next: Option<nat>, before: seq<Chunk>, c: Chunk, i: nat)
    requires i < |ReportFields(mode)| && ReportChanges(ReportFields(mode)[i].0, before, c)
    ensures var (report, section, analyst) := ReportFields(mode)[i];
            ComesBefore(Said(mode, next, before, c), Completed(analyst), Report(section, ReportText(report, c), false))
  {
    var m := ParseAll(Initial(mode, next), before).0.memory;
    RunRecalls(mode, next, before);
    AnalystFields(mode);
    var (report, section, analyst) := ReportFields(mode)[i];
    assert Get(m.reports, report) == LastReportText(report, before);
    hide ParseAll, Parse, Script, ReportScript, ReportFields, Recalls, Strip, Get, LastReportText, Does, ComesBefore;
    var (done, shown) := (Finish(analyst), Show(section, ReportText(report, c), false));
    ReportsDo(ReportFields(mode), i, c.reports, m.reports);
    EarlyDoes(mode, m, c, done, shown);
    ChunkDoes(mode, next, before, c, done, shown);
  }

  /** A changed argument is shown behind the announcement of who argues. */
  lemma ArgumentComesInOrder(mode: Mode, next: Option<nat>, before: seq<Chunk>, c: Chunk, h: History)
    requires h.Valid() && h.Shown(mode) && DebateChanges(h, h.Field().0, before, c)
    ensures var (field, section, agent) := h.Field();
            ComesBefore(Said(mode, next, before, c), InProgress(agent), Report(section, TextOf(h.In(c), field), true))
  {
    var m := ParseAll(Initial(mode, next), before).0.memory;
    RunRecalls(mode, next, before);
    SameHistory(h, before);
    DebatesRecalled(mode, m, before, c, h.Field().0);
    hide ParseAll, Parse, Script, DebateScript, RiskScript, Recalls, TextOf, Does, ComesBefore, LastDebate, NewIn;
    var (begun, shown) := (Start(h.Field().2), Show(h.Field().1, TextOf(h.In(c), h.Field().0), true));
    HistoryDoes(mode, h, h.In(c), RememberedDebate(h, m));
    if h.Research? {
      EarlyDoes(mode, m, c, begun, shown);
    } else {
      LateDoes(mode, m, c, begun, shown);
    }
    ChunkDoes(mode, next, before, c, begun, shown);
  }

  lemma {:induction false} SameHistory(h: History, chunks: seq<Chunk>)
    ensures LastDebate(h, chunks) == LastDebate(if h.Research? then RESEARCH else RISK, chunks)
  {
    if chunks != [] {
      SameHistory(h, chunks[..|chunks| - 1]);
    }
  }

  /** Behind a changed verdict on the research its three agents are complete, then the trader begins. */
  lemma ResearchComesInOrder(mode: Mode, next: Option<nat>, before: seq<Chunk>, c: Chunk, done: Agent)
    requires DebateChanges(RESEARCH, "judge_decision", before, c)
    requires done in ["Bull Researcher", "Bear Researcher", "Research Manager"]
    ensures ComesBefore(Said(mode, next, before, c), Completed(done), InProgress("Trader"))
  {
    var m := ParseAll(Initial(mode, next), before).0.memory;
    RunRecalls(mode, next, before);
    DebatesRecalled(mode, m, before, c, "judge_decision");
    hide ParseAll, Parse, Script, DebateScript, Recalls, NewIn, Does, ComesBefore, DebateChanges;
    DebateDoes(c.debate, m.debate, done);
    EarlyDoes(mode, m, c, Finish(done), Start("Trader"));
    ChunkDoes(mode, next, before, c, Finish(done), Start("Trader"));
  }

  /** A changed verdict on risk is shown, then the five analysts are complete, then the portfolio manager
      begins. */
  lemma RiskComesInOrder(mode: Mode, next: Option<nat>, before: seq<Chunk>, c: Chunk, done: Agent)
    requires !mode.quickTrade && DebateChanges(RISK, "judge_decision", before, c)
    requires done in ["Aggressive Analyst", "Conservative Analyst", "Neutral Analyst", "Bull Analyst", "Bear Analyst"]
    ensures ComesBefore(Said(mode, next, before, c),
                        Report("portfolio_manager", TextOf(c.risk, "judge_decision"), false), Completed(done))
    ensures ComesBefore(Said(mode, next, before, c), Completed(done), InProgress("Portfolio Manager"))
  {
    var m := ParseAll(Initial(mode, next), before).0.memory;
    RunRecalls(mode, next, before);
    DebatesRecalled(mode, m, before, c, "judge_decision");
    RiskDoes(mode, c.risk, m.risk, done);
    hide ParseAll, Parse, Script, RiskScript, Recalls, NewIn, TextOf, Does, ComesBefore, DebateChanges, LastDebate;
    var shown := Show("portfolio_manager", TextOf(c.risk, "judge_decision"), false);
    LateDoes(mode, m, c, shown, Finish(done));
    LateDoes(mode, m, c, Finish(done), Start("Portfolio Manager"));
    ChunkDoes(mode, next, before, c, shown, Finish(done));
    ChunkDoes(mode, next, before, c, Finish(done), Start("Portfolio Manager"));
  }

  /** A changed decision is shown, then the portfolio manager is complete, then the execution monitor
      begins. */
  lemma DecisionComesInOrder(mode: Mode, next: Option<nat>, before: seq<Chunk>, c: Chunk)
    requires !mode.quickTrade && DecisionChanges(before, c)
    ensures ComesBefore(Said(mode, next, before, c), Report("portfolio_manager", Normalize(c.decision), false),
                        Completed("Portfolio Manager"))
    ensures ComesBefore(Said(mode, next, before, c), Completed("Portfolio Manager"), InProgress("Execution Monitor"))
  {
    var m := ParseAll(Initial(mode, next), before).0.memory;
    ResultIsNew(mode, next, before, c);
    DecisionDoes(mode, c, m.decision);
    hide ParseAll, Parse, Script, DecisionScript, Normalize, TextIn, NewText, NewDecision, Does, ComesBefore;
    hide DecisionChanges;
    var (shown, done) := (Show("portfolio_manager", Normalize(c.decision), false), Finish("Portfolio Manager"));
    LateDoes(mode, m, c, shown, done);
    LateDoes(mode, m, c, done, Start("Execution Monitor"));
    ChunkDoes(mode, next, before, c, shown, done);
    ChunkDoes(mode, next, before, c, done, Start("Execution Monitor"));
  }
}
