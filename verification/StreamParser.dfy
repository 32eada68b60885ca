/**
 The stream parser of backend/stream_parser.py: cumulative snapshots in, delta events out.

 A chunk is the part of the snapshot the parser reads, with values of the expected types. A
 plan given as text carries the canonical form `json.dumps(json.loads(text))` when there is
 one.
 */
module StreamParser {
  import opened Common

  type Agent = string

  datatype Event =
    | InProgress(agent: Agent)
    | Completed(agent: Agent)
    | Report(section: string, content: string, append: bool)
    | Message(sender: string, content: string, number: nat)
    | ToolCall(name: string, args: string)

  // ---------------------------------------------------------------------------------
  // The snapshot
  // ---------------------------------------------------------------------------------

  datatype Content = Text(text: string) | NotText
  datatype Tool = Tool(name: string, args: string)
  datatype Msg = Msg(name: Option<string>, kind: string, content: Content, tools: seq<Tool>)

  /** A chunk without a `messages` entry has the empty list. */
  datatype Messages = NotAList | Listed(items: seq<Msg>)

  /** A debate state: its text fields, and the rest, which matters only for equality. An absent
      or empty one is `None` in the chunk. */
  datatype Debate = Debate(texts: map<string, string>, rest: int)
  datatype Plan = Structured(dumped: string) | Plain(text: string, canonical: Option<string>)

  datatype Chunk = Chunk(
    messages: Messages, reports: map<string, string>,
    debate: Option<Debate>, trader: Option<Plan>, compliance: Option<string>,
    riskManager: Option<string>, confluence: Option<string>, risk: Option<Debate>,
    decision: Option<Plan>, executionNotes: Option<string>)

  predicate IsSpace(c: char) {
    || c in " \t\n\r" || 0x0B <= c as int <= 0x0C || 0x1C <= c as int <= 0x1F
    || c as int in {0x85, 0xA0, 0x1680, 0x2028, 0x2029, 0x202F, 0x205F, 0x3000}
    || 0x2000 <= c as int <= 0x200A
  }

  function Strip(s: string): string {
    if s == "" then ""
    else if IsSpace(s[0]) then Strip(s[1..])
    else if IsSpace(s[|s| - 1]) then Strip(s[..|s| - 1])
    else s
  }

  function Normalize(plan: Option<Plan>): string {
    match plan
    case None => ""
    case Some(Structured(dumped)) => dumped
    case Some(Plain(text, canonical)) =>
      if Strip(text) == "" then "" else if canonical.Some? then canonical.value else Strip(text)
  }

  // ---------------------------------------------------------------------------------
  // Actions
  // ---------------------------------------------------------------------------------

  /** What the branches do: `Start` announces an agent and marks it, `Finish` completes an agent,
      announcing it first if it was never marked, and `Show` emits a report. */
  datatype Action = Start(agent: Agent) | Finish(agent: Agent) | Show(section: string, content: string, append: bool)

  function Do(seen: set<Agent>, a: Action): (set<Agent>, seq<Event>) {
    match a
    case Start(agent) => (seen + {agent}, [InProgress(agent)])
    case Finish(agent) => (seen + {agent}, (if agent in seen then [] else [InProgress(agent)]) + [Completed(agent)])
    case Show(section, content, append) => (seen, [Report(section, content, append)])
  }

  function Play(seen: set<Agent>, script: seq<Action>): (set<Agent>, seq<Event>) {
    if script == [] then (seen, [])
    else
      var (before, events) := Play(seen, script[..|script| - 1]);
      var (after, more) := Do(before, script[|script| - 1]);
      (after, events + more)
  }

  // ---------------------------------------------------------------------------------
  // The scripts of the branches
  // ---------------------------------------------------------------------------------

  /** Field, section and agent. */
  type Field = (string, string, Agent)

  const DEBATE_FIELDS: seq<Field> := [
    ("bull_history", "research_bull", "Bull Researcher"),
    ("bear_history", "research_bear", "Bear Researcher"),
    ("judge_decision", "research_manager", "Research Manager")]

  const RISK_FIELDS: seq<Field> := [
    ("aggressive_history", "risk_aggressive", "Aggressive Analyst"),
    ("conservative_history", "risk_conservative", "Conservative Analyst"),
    ("neutral_history", "risk_neutral", "Neutral Analyst")]

  const STOCK_REPORTS: seq<Field> := [
    ("market_report", "analyst_market", "Market Analyst"),
    ("sentiment_report", "analyst_social", "Social Analyst"),
    ("news_report", "analyst_news", "News Analyst"),
    ("fundamentals_report", "analyst_fundamentals", "Fundamentals Analyst")]

  const CRYPTO_REPORTS: seq<Field> := [
    ("market_report", "analyst_crypto_technical", "Technical Analyst"),
    ("derivatives_report", "analyst_crypto_derivatives", "Derivatives Analyst"),
    ("fundamentals_report", "analyst_crypto_derivatives", "Derivatives Analyst"),
    ("news_report", "analyst_crypto_news", "News Analyst"),
    ("crypto_fundamentals_report", "analyst_crypto_fundamentals", "Fundamentals Analyst"),
    ("sentiment_report", "analyst_crypto_social", "Social Analyst")]

  const RISK_AGENTS: seq<Agent> := [
    "Aggressive Analyst", "Conservative Analyst", "Neutral Analyst", "Bull Analyst", "Bear Analyst"]

  /** What is remembered of earlier chunks. A text that was never seen is `""`, which no new
      text equals. */
  datatype Memory = Memory(
    count: nat, reports: map<string, string>, debate: Option<Debate>, trader: string, compliance: string,
    riskManager: string, confluence: string, risk: Option<Debate>, decision: string, executionNotes: string)

  datatype Mode = Mode(quickTrade: bool, crypto: bool)

  function ReportFields(mode: Mode): seq<Field> {
    if mode.crypto then CRYPTO_REPORTS else STOCK_REPORTS
  }

  function Get(texts: map<string, string>, field: string): string {
    if field in texts then texts[field] else ""
  }

  /** A stripped field of a debate state, `""` if there is none. */
  function TextOf(d: Option<Debate>, field: string): string {
    if d.None? then "" else Strip(Get(d.value.texts, field))
  }

  predicate NewIn(d: Option<Debate>, prev: Option<Debate>, field: string) {
    TextOf(d, field) != "" && TextOf(d, field) != TextOf(prev, field)
  }

  predicate NewText(text: Option<string>, prev: string) {
    text.Some? && Strip(text.value) != "" && Strip(text.value) != prev
  }

  function Latest(text: Option<string>, prev: string): string {
    if NewText(text, prev) then Strip(text.value) else prev
  }

  predicate NewReport(chunk: map<string, string>, prev: map<string, string>, field: string) {
    Strip(Get(chunk, field)) != "" && Strip(Get(chunk, field)) != Get(prev, field)
  }

  function ReportScript(fields: seq<Field>, chunk: map<string, string>, prev: map<string, string>): seq<Action> {
    if fields == [] then []
    else
      var n := |fields| - 1;
      var (field, section, agent) := fields[n];
      ReportScript(fields[..n], chunk, prev)
      + if NewReport(chunk, LatestReports(fields[..n], chunk, prev), field)
        then [Finish(agent), Show(section, Strip(Get(chunk, field)), false)] else []
  }

  function LatestReports(fields: seq<Field>, chunk: map<string, string>, prev: map<string, string>)
    : map<string, string>
  {
    if fields == [] then prev
    else
      var n := |fields| - 1;
      var latest := LatestReports(fields[..n], chunk, prev);
      if NewReport(chunk, latest, fields[n].0) then latest[fields[n].0 := Strip(Get(chunk, fields[n].0))] else latest
  }

  lemma NoReports(chunk: map<string, string>, prev: map<string, string>)
    ensures ReportScript([], chunk, prev) == [] && LatestReports([], chunk, prev) == prev
  {
  }

  lemma ReportTurn(fields: seq<Field>, i: nat, chunk: map<string, string>, prev: map<string, string>)
    requires i < |fields|
    ensures var latest := LatestReports(fields[..i], chunk, prev);
            var (field, section, agent) := fields[i];
            var text := Strip(Get(chunk, field));
            if NewReport(chunk, latest, field)
            then && ReportScript(fields[..i + 1], chunk, prev)
                    == ReportScript(fields[..i], chunk, prev) + [Finish(agent), Show(section, text, false)]
                 && LatestReports(fields[..i + 1], chunk, prev) == latest[field := text]
            else && ReportScript(fields[..i + 1], chunk, prev) == ReportScript(fields[..i], chunk, prev)
                 && LatestReports(fields[..i + 1], chunk, prev) == latest
  {
    hide Strip, NewReport, Get;
    assert fields[..i + 1][..i] == fields[..i] && fields[..i + 1][i] == fields[i];
  }

  function FieldScript(fields: seq<Field>, d: Option<Debate>, prev: Option<Debate>): seq<Action> {
    if fields == [] then []
    else
      var n := |fields| - 1;
      var (field, section, agent) := fields[n];
      FieldScript(fields[..n], d, prev)
      + if NewIn(d, prev, field) then [Start(agent), Show(section, TextOf(d, field), true)] else []
  }

  function DebateScript(d: Option<Debate>, prev: Option<Debate>): seq<Action> {
    if d.None? || d == prev then []
    else
      FieldScript(DEBATE_FIELDS, d, prev)
      + if NewIn(d, prev, "judge_decision")
        then [Finish("Bull Researcher"), Finish("Bear Researcher"), Finish("Research Manager"), Start("Trader")]
        else []
  }

  function TraderScript(mode: Mode, plan: string, prev: string): seq<Action> {
    if plan == "" || plan == prev then []
    else [Show("trader", plan, false), Finish("Trader"),
          Start(if mode.quickTrade then "Risk Manager" else "Compliance Officer")]
  }

  function ResultScript(agent: Agent, section: string, text: Option<string>, prev: string): seq<Action> {
    if NewText(text, prev) then [Finish(agent), Show(section, Strip(text.value), false)] else []
  }

  function ConfluenceScript(text: Option<string>, prev: string): seq<Action> {
    ResultScript("Confluence Checker", "confluence", text, prev)
    + if NewText(text, prev) then [Start("Bull Researcher"), Start("Bear Researcher")] else []
  }

  function FinishAll(agents: seq<Agent>): seq<Action> {
    if agents == [] then [] else FinishAll(agents[..|agents| - 1]) + [Finish(agents[|agents| - 1])]
  }

  function RiskScript(mode: Mode, d: Option<Debate>, prev: Option<Debate>): seq<Action> {
    if d.None? || d == prev || mode.quickTrade then []
    else
      FieldScript(RISK_FIELDS, d, prev)
      + if NewIn(d, prev, "judge_decision")
        then [Show("portfolio_manager", TextOf(d, "judge_decision"), false)]
             + FinishAll(RISK_AGENTS) + [Start("Portfolio Manager")]
        else []
  }

  /** A decision is held back while a risk debate is present. */
  predicate NewDecision(c: Chunk, prev: string) {
    Normalize(c.decision) != "" && Normalize(c.decision) != prev && c.risk.None?
  }

  function DecisionScript(mode: Mode, c: Chunk, prev: string): seq<Action> {
    if !NewDecision(c, prev) then []
    else if mode.quickTrade then [Show("final_decision", Normalize(c.decision), false)]
    else [Show("portfolio_manager", Normalize(c.decision), false), Finish("Portfolio Manager"),
          Start("Execution Monitor")]
  }

  /** The branches up to the confluence summary. */
  function EarlyScript(mode: Mode, m: Memory, c: Chunk): seq<Action> {
    ReportScript(ReportFields(mode), c.reports, m.reports)
    + DebateScript(c.debate, m.debate)
    + TraderScript(mode, Normalize(c.trader), m.trader)
    + ResultScript("Compliance Officer", "compliance", c.compliance, m.compliance)
    + ResultScript("Risk Manager", "risk_manager", c.riskManager, m.riskManager)
  }

  function LateScript(mode: Mode, m: Memory, c: Chunk): seq<Action> {
    ConfluenceScript(c.confluence, m.confluence)
    + RiskScript(mode, c.risk, m.risk)
    + DecisionScript(mode, c, m.decision)
    + ResultScript("Execution Monitor", "execution_monitor", c.executionNotes, m.executionNotes)
  }

  function Script(mode: Mode, m: Memory, c: Chunk): seq<Action> {
    EarlyScript(mode, m, c) + LateScript(mode, m, c)
  }

  function Remember(mode: Mode, m: Memory, c: Chunk): Memory {
    Memory(
      if c.messages.Listed? then |c.messages.items| else m.count,
      LatestReports(ReportFields(mode), c.reports, m.reports),
      if c.debate.Some? then c.debate else m.debate,
      if Normalize(c.trader) != "" then Normalize(c.trader) else m.trader,
      Latest(c.compliance, m.compliance),
      Latest(c.riskManager, m.riskManager),
      Latest(c.confluence, m.confluence),
      if c.risk.Some? && !mode.quickTrade then c.risk else m.risk,
      if NewDecision(c, m.decision) then Normalize(c.decision) else m.decision,
      Latest(c.executionNotes, m.executionNotes))
  }

  // ---------------------------------------------------------------------------------
  // Messages
  // ---------------------------------------------------------------------------------

  function NewMessages(count: nat, messages: Messages): seq<Msg> {
    if messages.Listed? && count <= |messages.items| then messages.items[count..] else []
  }

  predicate HasText(m: Msg) {
    m.content.Text? && Strip(m.content.text) != ""
  }

  function ToolEvents(tools: seq<Tool>): seq<Event> {
    seq(|tools|, i requires 0 <= i < |tools| => ToolCall(tools[i].name, tools[i].args))
  }

  predicate Named(m: Msg) {
    m.name.Some? && m.name.value != ""
  }

  /** The events of one message; `next` is the counter's next value, or `None` without a counter. */
  function EventsOf(m: Msg, next: Option<nat>): seq<Event> {
    (if HasText(m)
     then [Message(if Named(m) then m.name.value else m.kind, Strip(m.content.text),
                   if next.Some? then next.value else 0)]
     else [])
    + ToolEvents(m.tools)
  }

  function Advance(next: Option<nat>, ms: seq<Msg>): Option<nat> {
    if ms == [] then next
    else
      var before := Advance(next, ms[..|ms| - 1]);
      if before.Some? && HasText(ms[|ms| - 1]) then Some(before.value + 1) else before
  }

  function MessageEvents(ms: seq<Msg>, next: Option<nat>): seq<Event> {
    if ms == [] then []
    else MessageEvents(ms[..|ms| - 1], next) + EventsOf(ms[|ms| - 1], Advance(next, ms[..|ms| - 1]))
  }

  /** The agent the last new message names is put first. */
  function Headline(ms: seq<Msg>): seq<Event> {
    if ms != [] && Named(ms[|ms| - 1]) then [InProgress(ms[|ms| - 1].name.value)] else []
  }

  // ---------------------------------------------------------------------------------
  // A chunk
  // ---------------------------------------------------------------------------------

  datatype State = State(mode: Mode, memory: Memory, seen: set<Agent>, next: Option<nat>)

  function Initial(mode: Mode, next: Option<nat>): State {
    State(mode, Memory(0, map[], None, "", "", "", "", None, "", ""), {}, next)
  }

  function Parse(s: State, c: Chunk): (State, seq<Event>) {
    var ms := NewMessages(s.memory.count, c.messages);
    var (seen, events) := Play(s.seen, Script(s.mode, s.memory, c));
    (State(s.mode, Remember(s.mode, s.memory, c), seen, Advance(s.next, ms)),
     Headline(ms) + MessageEvents(ms, s.next) + events)
  }

  function ParseAll(s: State, chunks: seq<Chunk>): (State, seq<Event>) {
    if chunks == [] then (s, [])
    else
      var (before, events) := ParseAll(s, chunks[..|chunks| - 1]);
      var (after, more) := Parse(before, chunks[|chunks| - 1]);
      (after, events + more)
  }

  // ---------------------------------------------------------------------------------
  // Completed agents were announced
  // ---------------------------------------------------------------------------------

  ghost predicate AnnouncedBefore(trace: seq<Event>, i: nat, agent: Agent)
    requires i <= |trace|
  {
    exists j :: 0 <= j < i && trace[j] == InProgress(agent)
  }

  ghost predicate Orderly(trace: seq<Event>) {
    forall i :: 0 <= i < |trace| && trace[i].Completed? ==> AnnouncedBefore(trace, i, trace[i].agent)
  }

  ghost predicate SeenAnnounced(seen: set<Agent>, trace: seq<Event>) {
    forall agent :: agent in seen ==> InProgress(agent) in trace
  }

  lemma OrderlySnoc(trace: seq<Event>, e: Event)
    requires Orderly(trace) && (e.Completed? ==> InProgress(e.agent) in trace)
    ensures Orderly(trace + [e])
    ensures forall f :: f in trace + [e] <==> f in trace || f == e
  {
    var longer := trace + [e];
    forall i | 0 <= i < |longer| && longer[i].Completed?
      ensures AnnouncedBefore(longer, i, longer[i].agent)
    {
      if i < |trace| {
        var j :| 0 <= j < i && trace[j] == InProgress(trace[i].agent);
        assert longer[j] == InProgress(longer[i].agent);
      } else {
        var j :| 0 <= j < |trace| && trace[j] == InProgress(e.agent);
        assert longer[j] == InProgress(longer[i].agent);
      }
    }
  }

  lemma DoKeepsOrder(seen: set<Agent>, trace: seq<Event>, a: Action)
    requires Orderly(trace) && SeenAnnounced(seen, trace)
    ensures var (seen', events) := Do(seen, a);
            Orderly(trace + events) && SeenAnnounced(seen', trace + events)
  {
    hide Orderly;
    match a
    case Start(agent) =>
      OrderlySnoc(trace, InProgress(agent));
    case Show(section, content, append) =>
      OrderlySnoc(trace, Report(section, content, append));
    case Finish(agent) =>
      if agent in seen {
        OrderlySnoc(trace, Completed(agent));
        assert [] + [Completed(agent)] == [Completed(agent)];
      } else {
        OrderlySnoc(trace, InProgress(agent));
        OrderlySnoc(trace + [InProgress(agent)], Completed(agent));
        assert trace + [InProgress(agent)] + [Completed(agent)] == trace + ([InProgress(agent)] + [Completed(agent)]);
      }
  }

  lemma {:induction false} PlayKeepsOrder(seen: set<Agent>, trace: seq<Event>, script: seq<Action>)
    requires Orderly(trace) && SeenAnnounced(seen, trace)
    ensures var (seen', events) := Play(seen, script);
            Orderly(trace + events) && SeenAnnounced(seen', trace + events)
  {
    hide Orderly, SeenAnnounced, Do;
    if script == [] {
      assert trace + [] == trace;
    } else {
      var n := |script| - 1;
      var (before, events) := Play(seen, script[..n]);
      PlayKeepsOrder(seen, trace, script[..n]);
      DoKeepsOrder(before, trace + events, script[n]);
      assert trace + events + Do(before, script[n]).1 == trace + (events + Do(before, script[n]).1);
    }
  }

  lemma {:induction false} QuietKeepsOrder(trace: seq<Event>, events: seq<Event>)
    requires Orderly(trace) && forall i :: 0 <= i < |events| ==> !events[i].Completed?
    ensures Orderly(trace + events) && forall e :: e in trace ==> e in trace + events
  {
    hide Orderly;
    if events == [] {
      assert trace + [] == trace;
    } else {
      var n := |events| - 1;
      QuietKeepsOrder(trace, events[..n]);
      OrderlySnoc(trace + events[..n], events[n]);
      assert trace + events[..n] + [events[n]] == trace + events;
    }
  }

  predicate Spoken(e: Event) {
    e.Message? || e.ToolCall?
  }

  lemma {:induction false} MessageEventsAreSpoken(ms: seq<Msg>, next: Option<nat>)
    ensures forall i :: 0 <= i < |MessageEvents(ms, next)| ==> Spoken(MessageEvents(ms, next)[i])
  {
    if ms != [] {
      MessageEventsAreSpoken(ms[..|ms| - 1], next);
    }
  }

  lemma ParseKeepsOrder(s: State, trace: seq<Event>, c: Chunk)
    requires Orderly(trace) && SeenAnnounced(s.seen, trace)
    ensures var (s', events) := Parse(s, c);
            Orderly(trace + events) && SeenAnnounced(s'.seen, trace + events)
  {
    hide Orderly, Script, Remember, Play, MessageEvents, Advance;
    var ms := NewMessages(s.memory.count, c.messages);
    var quiet := Headline(ms) + MessageEvents(ms, s.next);
    MessageEventsAreSpoken(ms, s.next);
    QuietKeepsOrder(trace, quiet);
    var played := Play(s.seen, Script(s.mode, s.memory, c)).1;
    PlayKeepsOrder(s.seen, trace + quiet, Script(s.mode, s.memory, c));
    assert trace + quiet + played == trace + (quiet + played);
  }

  lemma {:induction false} ParseAllKeepsOrder(s: State, chunks: seq<Chunk>)
    requires s.seen == {}
    ensures var (s', trace) := ParseAll(s, chunks);
            Orderly(trace) && SeenAnnounced(s'.seen, trace)
  {
    hide Orderly, SeenAnnounced, Parse;
    if chunks == [] {
      EmptyIsOrderly();
    } else {
      var n := |chunks| - 1;
      var (before, trace) := ParseAll(s, chunks[..n]);
      ParseAllKeepsOrder(s, chunks[..n]);
      ParseKeepsOrder(before, trace, chunks[n]);
    }
  }

  lemma EmptyIsOrderly()
    ensures Orderly([]) && SeenAnnounced({}, [])
  {
  }

  /** Over every run, in every mode, an agent is announced before it is completed. */
  lemma CompletedWasAnnounced(mode: Mode, next: Option<nat>, chunks: seq<Chunk>)
    ensures var trace := ParseAll(Initial(mode, next), chunks).1;
            forall i :: 0 <= i < |trace| && trace[i].Completed? ==> AnnouncedBefore(trace, i, trace[i].agent)
  {
    hide ParseAll;
    ParseAllKeepsOrder(Initial(mode, next), chunks);
  }

  // ---------------------------------------------------------------------------------
  // The same chunk again
  // ---------------------------------------------------------------------------------

  /** Every report of the chunk has the remembered text. */
  ghost predicate Settled(fields: seq<Field>, chunk: map<string, string>, prev: map<string, string>) {
    forall i :: 0 <= i < |fields| ==> !NewReport(chunk, prev, fields[i].0)
  }

  lemma {:induction false} LatestReportsSettle(
    fields: seq<Field>, chunk: map<string, string>, prev: map<string, string>)
    ensures Settled(fields, chunk, LatestReports(fields, chunk, prev))
  {
    hide Strip;
    if fields != [] {
      LatestReportsSettle(fields[..|fields| - 1], chunk, prev);
    }
  }

  lemma {:induction false} SettledReportsAreSilent(
    fields: seq<Field>, chunk: map<string, string>, prev: map<string, string>)
    requires Settled(fields, chunk, prev)
    ensures ReportScript(fields, chunk, prev) == [] && LatestReports(fields, chunk, prev) == prev
  {
    hide Strip, NewReport;
    if fields != [] {
      SettledReportsAreSilent(fields[..|fields| - 1], chunk, prev);
    }
  }

  lemma RememberedChunkIsSilent(mode: Mode, m: Memory, c: Chunk)
    ensures Script(mode, Remember(mode, m, c), c) == []
    ensures Remember(mode, Remember(mode, m, c), c) == Remember(mode, m, c)
  {
    hide Strip, FieldScript, FinishAll, NewReport, NewIn, LatestReports, ReportScript, Normalize;
    LatestReportsSettle(ReportFields(mode), c.reports, m.reports);
    SettledReportsAreSilent(ReportFields(mode), c.reports, LatestReports(ReportFields(mode), c.reports, m.reports));
  }

  /** Parsing the same chunk again emits nothing and changes nothing. */
  lemma SameChunkAgainIsSilent(s: State, c: Chunk)
    ensures var s' := Parse(s, c).0;
            Parse(s', c) == (s', [])
  {
    hide Script, Remember, Play, MessageEvents, Advance, Headline, NewMessages;
    RememberedChunkIsSilent(s.mode, s.memory, c);
    CountAfter(s.mode, s.memory, c);
    NothingToParse(Parse(s, c).0, c);
  }

  lemma NothingToParse(s: State, c: Chunk)
    requires Script(s.mode, s.memory, c) == [] && Remember(s.mode, s.memory, c) == s.memory
    requires NewMessages(s.memory.count, c.messages) == []
    ensures Parse(s, c) == (s, [])
  {
    hide Script, Remember, NewMessages;
    assert Play(s.seen, []) == (s.seen, []) && Advance(s.next, []) == s.next;
    assert Headline([]) + MessageEvents([], s.next) + [] == [];
  }

  lemma CountAfter(mode: Mode, m: Memory, c: Chunk)
    ensures NewMessages(Remember(mode, m, c).count, c.messages) == []
  {
  }

  // ---------------------------------------------------------------------------------
  // Messages over a run
  // ---------------------------------------------------------------------------------

  function SpokenPart(events: seq<Event>): seq<Event> {
    if events == [] then []
    else SpokenPart(events[..|events| - 1]) + if Spoken(events[|events| - 1]) then [events[|events| - 1]] else []
  }

  lemma {:induction false} SpokenConcat(a: seq<Event>, b: seq<Event>)
    ensures SpokenPart(a + b) == SpokenPart(a) + SpokenPart(b)
  {
    hide Spoken;
    if b == [] {
      assert a + b == a;
    } else {
      var n := |b| - 1;
      SpokenConcat(a, b[..n]);
      assert (a + b)[..|a + b| - 1] == a + b[..n];
    }
  }

  lemma {:induction false} AllSpoken(events: seq<Event>)
    requires forall i :: 0 <= i < |events| ==> Spoken(events[i])
    ensures SpokenPart(events) == events
  {
    if events != [] {
      AllSpoken(events[..|events| - 1]);
    }
  }

  lemma {:induction false} NoneSpoken(events: seq<Event>)
    requires forall i :: 0 <= i < |events| ==> !Spoken(events[i])
    ensures SpokenPart(events) == []
  {
    if events != [] {
      NoneSpoken(events[..|events| - 1]);
    }
  }

  lemma {:induction false} PlayIsUnspoken(seen: set<Agent>, script: seq<Action>)
    ensures forall i :: 0 <= i < |Play(seen, script).1| ==> !Spoken(Play(seen, script).1[i])
  {
    if script != [] {
      PlayIsUnspoken(seen, script[..|script| - 1]);
    }
  }

  lemma ParseSpeaksItsMessages(s: State, c: Chunk)
    ensures SpokenPart(Parse(s, c).1) == MessageEvents(NewMessages(s.memory.count, c.messages), s.next)
  {
    hide SpokenPart, Play, MessageEvents, Script, Remember, Advance;
    var ms := NewMessages(s.memory.count, c.messages);
    var played := Play(s.seen, Script(s.mode, s.memory, c)).1;
    NoneSpoken(Headline(ms));
    MessageEventsAreSpoken(ms, s.next);
    AllSpoken(MessageEvents(ms, s.next));
    PlayIsUnspoken(s.seen, Script(s.mode, s.memory, c));
    NoneSpoken(played);
    SpokenConcat(Headline(ms), MessageEvents(ms, s.next));
    SpokenConcat(Headline(ms) + MessageEvents(ms, s.next), played);
  }

  lemma {:induction false} AdvanceConcat(a: seq<Msg>, b: seq<Msg>, next: Option<nat>)
    ensures Advance(next, a + b) == Advance(Advance(next, a), b)
  {
    hide HasText;
    if b == [] {
      assert a + b == a;
    } else {
      AdvanceConcat(a, b[..|b| - 1], next);
      assert (a + b)[..|a + b| - 1] == a + b[..|b| - 1];
    }
  }

  lemma {:induction false} MessageEventsConcat(a: seq<Msg>, b: seq<Msg>, next: Option<nat>)
    ensures MessageEvents(a + b, next) == MessageEvents(a, next) + MessageEvents(b, Advance(next, a))
  {
    hide EventsOf, Advance;
    if b == [] {
      assert a + b == a;
    } else {
      var init := b[..|b| - 1];
      MessageEventsConcat(a, init, next);
      AdvanceConcat(a, init, next);
      assert (a + b)[..|a + b| - 1] == a + init && (a + b)[|a + b| - 1] == b[|b| - 1];
    }
  }

  /** The count after a chunk, and the messages processed, over a run. */
  function CountAfterAll(count: nat, chunks: seq<Chunk>): nat {
    if chunks == [] then count
    else
      var messages := chunks[|chunks| - 1].messages;
      if messages.Listed? then |messages.items| else CountAfterAll(count, chunks[..|chunks| - 1])
  }

  function Processed(count: nat, chunks: seq<Chunk>): seq<Msg> {
    if chunks == [] then []
    else
      var before := chunks[..|chunks| - 1];
      Processed(count, before) + NewMessages(CountAfterAll(count, before), chunks[|chunks| - 1].messages)
  }

  /** Over any run the message and tool-call events are those of the messages processed. */
  lemma {:induction false} RunSpeaksProcessed(s: State, chunks: seq<Chunk>)
    ensures var (s', trace) := ParseAll(s, chunks);
            && s'.memory.count == CountAfterAll(s.memory.count, chunks)
            && s'.next == Advance(s.next, Processed(s.memory.count, chunks))
            && SpokenPart(trace) == MessageEvents(Processed(s.memory.count, chunks), s.next)
  {
    hide SpokenPart, Play, Script, MessageEvents, Advance;
    if chunks == [] {
      NothingSaid(s.next);
    } else {
      var n := |chunks| - 1;
      var (before, trace) := ParseAll(s, chunks[..n]);
      RunSpeaksProcessed(s, chunks[..n]);
      ParseSpeaksItsMessages(before, chunks[n]);
      SpokenConcat(trace, Parse(before, chunks[n]).1);
      var (done, more) :=
        (Processed(s.memory.count, chunks[..n]), NewMessages(before.memory.count, chunks[n].messages));
      AdvanceConcat(done, more, s.next);
      MessageEventsConcat(done, more, s.next);
    }
  }

  lemma NothingSaid(next: Option<nat>)
    ensures SpokenPart([]) == [] && MessageEvents([], next) == [] && Advance(next, []) == next
  {
  }

  /** Every list in the chunks is a prefix of `all`. */
  ghost predicate PrefixesOf(chunks: seq<Chunk>, all: seq<Msg>) {
    forall i :: 0 <= i < |chunks| && chunks[i].messages.Listed? ==> chunks[i].messages.items <= all
  }

  /** No list is shorter than the one before it. */
  predicate NeverShrinks(chunks: seq<Chunk>) {
    chunks == [] ||
    (var before := chunks[..|chunks| - 1];
     NeverShrinks(before)
     && (chunks[|chunks| - 1].messages.Listed? ==> CountAfterAll(0, before) <= |chunks[|chunks| - 1].messages.items|))
  }

  /** When the lists are prefixes of one list, each message is processed exactly once if and only
      if no list is shorter than an earlier one. A chunk without messages counts as shorter. */
  lemma {:induction false} ProcessedOnceExactlyWhenGrowing(chunks: seq<Chunk>, all: seq<Msg>)
    requires PrefixesOf(chunks, all)
    ensures CountAfterAll(0, chunks) <= |all| && |Processed(0, chunks)| >= CountAfterAll(0, chunks)
    ensures Processed(0, chunks) == all[..CountAfterAll(0, chunks)] <==> NeverShrinks(chunks)
    ensures |Processed(0, chunks)| == CountAfterAll(0, chunks) ==> NeverShrinks(chunks)
  {
    hide PrefixesOf;
    if chunks != [] {
      var before, c := chunks[..|chunks| - 1], chunks[|chunks| - 1];
      PrefixesOfInit(chunks, all);
      ProcessedOnceExactlyWhenGrowing(before, all);
      if c.messages.Listed? {
        assert c.messages.items == all[..|c.messages.items|];
        OneMoreList(Processed(0, before), all, CountAfterAll(0, before), |c.messages.items|);
      } else {
        assert Processed(0, chunks) == Processed(0, before) + [];
      }
    }
  }

  lemma PrefixesOfInit(chunks: seq<Chunk>, all: seq<Msg>)
    requires chunks != [] && PrefixesOf(chunks, all)
    ensures PrefixesOf(chunks[..|chunks| - 1], all)
    ensures chunks[|chunks| - 1].messages.Listed? ==> chunks[|chunks| - 1].messages.items <= all
  {
  }

  /** Having processed `done`, with the count at `m`, the parser is shown the first `n` messages. */
  lemma OneMoreList(done: seq<Msg>, all: seq<Msg>, m: nat, n: nat)
    requires m <= |all| && n <= |all| && |done| >= m
    ensures var longer := done + NewMessages(m, Listed(all[..n]));
            && |longer| >= n
            && (longer == all[..n] <==> done == all[..m] && m <= n)
            && (|longer| == n ==> |done| == m && m <= n)
  {
    var longer := done + NewMessages(m, Listed(all[..n]));
    if m <= n {
      assert all[..n][m..] == all[m..n] && all[..m] + all[m..n] == all[..n];
      if longer == all[..n] {
        assert done == longer[..|done|] && |done| == m;
      }
    } else {
      assert longer == done;
    }
  }

  /** For lists that only grow, the message and tool-call events and their numbers do not depend
      on how the list is cut into chunks. */
  lemma ChunkingIsInvisible(mode: Mode, next: Option<nat>, chunks: seq<Chunk>, all: seq<Msg>)
    requires PrefixesOf(chunks, all) && NeverShrinks(chunks) && CountAfterAll(0, chunks) == |all|
    ensures SpokenPart(ParseAll(Initial(mode, next), chunks).1) == MessageEvents(all, next)
  {
    hide SpokenPart, ParseAll, MessageEvents;
    ProcessedOnceExactlyWhenGrowing(chunks, all);
    RunSpeaksProcessed(Initial(mode, next), chunks);
    assert all[..|all|] == all;
  }

  /** A chunk that lacks the messages makes the next one replay them all. */
  lemma MissingMessagesAreReplayed(c: Chunk, gap: Chunk)
    requires c.messages.Listed? && gap.messages == Listed([])
    ensures Processed(0, [c, gap, c]) == c.messages.items + c.messages.items
  {
    assert [c, gap, c][..2] == [c, gap] && [c, gap][..1] == [c] && [c][..0] == [];
    assert Processed(0, [c]) == c.messages.items;
    assert Processed(0, [c, gap]) == c.messages.items;
  }

  /** With a counter, the message events of a run are numbered without gap or repeat. */
  lemma {:induction false} NumbersAreConsecutive(ms: seq<Msg>, first: nat)
    ensures var numbers := Numbers(MessageEvents(ms, Some(first)));
            && numbers == CountUp(first, |numbers|)
            && Advance(Some(first), ms) == Some(first + |numbers|)
  {
    hide EventsOf, HasText, Numbers;
    if ms != [] {
      var n := |ms| - 1;
      NumbersAreConsecutive(ms[..n], first);
      var next := Advance(Some(first), ms[..n]);
      NumbersConcat(MessageEvents(ms[..n], Some(first)), EventsOf(ms[n], next));
      NumbersOfOne(ms[n], next);
    } else {
      NoNumbers();
    }
  }

  /** Without one they are all numbered zero. */
  lemma {:induction false} NumbersWithoutCounter(ms: seq<Msg>)
    ensures forall i :: 0 <= i < |Numbers(MessageEvents(ms, None))| ==> Numbers(MessageEvents(ms, None))[i] == 0
    ensures Advance(None, ms) == None
  {
    hide EventsOf, HasText, Numbers;
    if ms != [] {
      var n := |ms| - 1;
      NumbersWithoutCounter(ms[..n]);
      NumbersConcat(MessageEvents(ms[..n], None), EventsOf(ms[n], None));
      NumbersOfOne(ms[n], None);
    } else {
      NoNumbers();
    }
  }

  lemma NoNumbers()
    ensures Numbers([]) == [] && CountUp(0, 0) == []
  {
  }

  function CountUp(first: nat, n: nat): (numbers: seq<nat>)
    ensures |numbers| == n
  {
    if n == 0 then [] else CountUp(first, n - 1) + [first + n - 1]
  }

  function Numbers(events: seq<Event>): seq<nat> {
    if events == [] then []
    else Numbers(events[..|events| - 1]) + if events[|events| - 1].Message? then [events[|events| - 1].number] else []
  }

  lemma {:induction false} NumbersConcat(a: seq<Event>, b: seq<Event>)
    ensures Numbers(a + b) == Numbers(a) + Numbers(b)
  {
    if b == [] {
      assert a + b == a;
    } else {
      NumbersConcat(a, b[..|b| - 1]);
      assert (a + b)[..|a + b| - 1] == a + b[..|b| - 1];
    }
  }

  lemma NumbersOfOne(m: Msg, next: Option<nat>)
    ensures Numbers(EventsOf(m, next)) == if HasText(m) then [if next.Some? then next.value else 0] else []
  {
    NumbersOfTools(m.tools);
    if HasText(m) {
      var number := if next.Some? then next.value else 0;
      var head := [Message(if Named(m) then m.name.value else m.kind, Strip(m.content.text), number)];
      NumbersConcat(head, ToolEvents(m.tools));
      assert head[..0] == [];
      assert Numbers(head) == [number];
    } else {
      assert EventsOf(m, next) == ToolEvents(m.tools);
    }
  }

  lemma {:induction false} NumbersOfTools(tools: seq<Tool>)
    ensures Numbers(ToolEvents(tools)) == []
  {
    if tools != [] {
      NumbersOfTools(tools[..|tools| - 1]);
      assert ToolEvents(tools)[..|tools| - 1] == ToolEvents(tools[..|tools| - 1]);
    }
  }

  // ---------------------------------------------------------------------------------
  // What the messages say
  // ---------------------------------------------------------------------------------

  /** The tool calls of a trace, by name and arguments. */
  function ToolsIn(trace: seq<Event>): seq<(string, string)> {
    if trace == [] then []
    else
      var e := trace[|trace| - 1];
      ToolsIn(trace[..|trace| - 1]) + if e.ToolCall? then [(e.name, e.args)] else []
  }

  /** The sayings of a trace, by sender and text. */
  function SaidIn(trace: seq<Event>): seq<(string, string)> {
    if trace == [] then []
    else
      var e := trace[|trace| - 1];
      SaidIn(trace[..|trace| - 1]) + if e.Message? then [(e.sender, e.content)] else []
  }

  function CallsOfTools(tools: seq<Tool>): seq<(string, string)> {
    if tools == [] then []
    else CallsOfTools(tools[..|tools| - 1]) + [(tools[|tools| - 1].name, tools[|tools| - 1].args)]
  }

  function ToolCallsOf(ms: seq<Msg>): seq<(string, string)> {
    if ms == [] then [] else ToolCallsOf(ms[..|ms| - 1]) + CallsOfTools(ms[|ms| - 1].tools)
  }

  /** A message says its stripped text, if that is not empty, under its name or else its kind. */
  function SayingsOf(ms: seq<Msg>): seq<(string, string)> {
    if ms == [] then []
    else
      var m := ms[|ms| - 1];
      var sender := if m.name.None? || m.name == Some("") then m.kind else m.name.value;
      SayingsOf(ms[..|ms| - 1])
      + if m.content.NotText? || Strip(m.content.text) == "" then [] else [(sender, Strip(m.content.text))]
  }

  lemma {:induction false} SpokenKeeps(trace: seq<Event>)
    ensures ToolsIn(SpokenPart(trace)) == ToolsIn(trace) && SaidIn(SpokenPart(trace)) == SaidIn(trace)
  {
    if trace != [] {
      var (before, e) := (trace[..|trace| - 1], trace[|trace| - 1]);
      SpokenKeeps(before);
      if Spoken(e) {
        assert (SpokenPart(before) + [e])[..|SpokenPart(before)|] == SpokenPart(before);
      } else {
        assert SpokenPart(before) + [] == SpokenPart(before);
      }
    }
  }

  lemma {:induction false} ToolsConcat(a: seq<Event>, b: seq<Event>)
    ensures ToolsIn(a + b) == ToolsIn(a) + ToolsIn(b)
  {
    if b == [] {
      assert a + b == a;
    } else {
      ToolsConcat(a, b[..|b| - 1]);
      assert (a + b)[..|a + b| - 1] == a + b[..|b| - 1];
    }
  }

  lemma {:induction false} SaidConcat(a: seq<Event>, b: seq<Event>)
    ensures SaidIn(a + b) == SaidIn(a) + SaidIn(b)
  {
    if b == [] {
      assert a + b == a;
    } else {
      SaidConcat(a, b[..|b| - 1]);
      assert (a + b)[..|a + b| - 1] == a + b[..|b| - 1];
    }
  }

  lemma {:induction false} ToolEventsProjected(tools: seq<Tool>)
    ensures ToolsIn(ToolEvents(tools)) == CallsOfTools(tools) && SaidIn(ToolEvents(tools)) == []
  {
    if tools != [] {
      ToolEventsProjected(tools[..|tools| - 1]);
      assert ToolEvents(tools)[..|tools| - 1] == ToolEvents(tools[..|tools| - 1]);
    }
  }

  lemma EventsOfProjected(m: Msg, next: Option<nat>)
    ensures ToolsIn(EventsOf(m, next)) == CallsOfTools(m.tools)
    ensures SaidIn(EventsOf(m, next)) == SayingsOf([m])
  {
    hide Strip;
    var said := if HasText(m)
                then [Message(if Named(m) then m.name.value else m.kind, Strip(m.content.text),
                              if next.Some? then next.value else 0)]
                else [];
    ToolsConcat(said, ToolEvents(m.tools));
    SaidConcat(said, ToolEvents(m.tools));
    ToolEventsProjected(m.tools);
    assert [m][..0] == [] && (said != [] ==> said[..0] == []);
    assert ToolsIn(said) == [] && SaidIn(said) == SayingsOf([m]);
  }

  lemma MessagesSplit(ms: seq<Msg>, next: Option<nat>)
    requires ms != []
    ensures var (before, m) := (ms[..|ms| - 1], ms[|ms| - 1]);
            && MessageEvents(ms, next) == MessageEvents(before, next) + EventsOf(m, Advance(next, before))
            && ToolCallsOf(ms) == ToolCallsOf(before) + CallsOfTools(m.tools)
            && SayingsOf(ms) == SayingsOf(before) + SayingsOf([m])
  {
    hide EventsOf, Advance, Strip, CallsOfTools;
    assert [ms[|ms| - 1]][..0] == [];
  }

  lemma {:induction false} MessageEventsProjected(ms: seq<Msg>, next: Option<nat>)
    ensures ToolsIn(MessageEvents(ms, next)) == ToolCallsOf(ms) && SaidIn(MessageEvents(ms, next)) == SayingsOf(ms)
  {
    if ms != [] {
      var n := |ms| - 1;
      MessageEventsProjected(ms[..n], next);
      MessagesSplit(ms, next);
      hide *;
      EventsOfProjected(ms[n], Advance(next, ms[..n]));
      ToolsConcat(MessageEvents(ms[..n], next), EventsOf(ms[n], Advance(next, ms[..n])));
      SaidConcat(MessageEvents(ms[..n], next), EventsOf(ms[n], Advance(next, ms[..n])));
    }
  }

  /** Over every run the trace holds, in order, exactly the tool calls of the processed messages, each
      with its name and arguments, and exactly their texts under their senders. */
  lemma RunSaysWhatMessagesSay(s: State, chunks: seq<Chunk>)
    ensures var (trace, ms) := (ParseAll(s, chunks).1, Processed(s.memory.count, chunks));
            ToolsIn(trace) == ToolCallsOf(ms) && SaidIn(trace) == SayingsOf(ms)
  {
    RunSpeaksProcessed(s, chunks);
    SpokenKeeps(ParseAll(s, chunks).1);
    MessageEventsProjected(Processed(s.memory.count, chunks), s.next);
    hide ParseAll, Processed, ToolsIn, SaidIn, ToolCallsOf, SayingsOf, MessageEvents, SpokenPart;
  }

  // ---------------------------------------------------------------------------------
  // Texts
  // ---------------------------------------------------------------------------------

  ghost predicate Blank(s: string) {
    forall i :: 0 <= i < |s| ==> IsSpace(s[i])
  }

  lemma BlankConcat(a: string, b: string)
    requires Blank(a) && Blank(b)
    ensures Blank(a + b)
  {
    hide IsSpace;
  }

  /** Stripping takes blanks off both ends, and all of them. */
  lemma {:induction false} StripTakesBlanks(s: string) returns (left: string, right: string)
    ensures s == left + Strip(s) + right && Blank(left) && Blank(right)
    ensures Strip(s) != "" ==> !IsSpace(Strip(s)[0]) && !IsSpace(Strip(s)[|Strip(s)| - 1])
    decreases |s|
  {
    hide IsSpace;
    left, right := "", "";
    if s != "" {
      var n := |s| - 1;
      if IsSpace(s[0]) {
        var inner, end := StripTakesBlanks(s[1..]);
        left, right := [s[0]] + inner, end;
        BlankConcat([s[0]], inner);
        hide Blank, Strip;
        assert [s[0]] + s[1..] == s;
        assert [s[0]] + (inner + Strip(s[1..]) + end) == left + Strip(s[1..]) + end;
      } else if IsSpace(s[n]) {
        var start, inner := StripTakesBlanks(s[..n]);
        left, right := start, inner + [s[n]];
        BlankConcat(inner, [s[n]]);
        hide Blank, Strip;
        assert s[..n] + [s[n]] == s;
        assert start + Strip(s[..n]) + inner + [s[n]] == start + Strip(s[..n]) + right;
      }
    }
  }

  /** A plan, or a decision, given as a structure and the same one given as text parse alike; text that
      is no JSON counts stripped, and one of blanks counts as none. */
  lemma SpellingsParseAlike(s: State, c: Chunk, dumped: string, text: string)
    ensures Strip(text) != "" ==>
              var (structure, spelled) := (Some(Structured(dumped)), Some(Plain(text, Some(dumped))));
              && Normalize(structure) == dumped && Normalize(Some(Plain(text, None))) == Strip(text)
              && Parse(s, c.(trader := structure)) == Parse(s, c.(trader := spelled))
              && Parse(s, c.(decision := structure)) == Parse(s, c.(decision := spelled))
    ensures Strip(text) == "" ==>
              forall canonical ::
                && Parse(s, c.(trader := Some(Plain(text, canonical)))) == Parse(s, c.(trader := None))
                && Parse(s, c.(decision := Some(Plain(text, canonical)))) == Parse(s, c.(decision := None))
  {
    hide Strip, Parse;
    var (structure, spelled) := (Some(Structured(dumped)), Some(Plain(text, Some(dumped))));
    if Strip(text) != "" {
      OnlyNormalized(s, c.(trader := structure), c.(trader := spelled));
      OnlyNormalized(s, c.(decision := structure), c.(decision := spelled));
    } else {
      forall canonical
        ensures Parse(s, c.(trader := Some(Plain(text, canonical)))) == Parse(s, c.(trader := None))
        ensures Parse(s, c.(decision := Some(Plain(text, canonical)))) == Parse(s, c.(decision := None))
      {
        OnlyNormalized(s, c.(trader := Some(Plain(text, canonical))), c.(trader := None));
        OnlyNormalized(s, c.(decision := Some(Plain(text, canonical))), c.(decision := None));
      }
    }
  }

  lemma OnlyNormalized(s: State, c: Chunk, d: Chunk)
    requires d == c.(trader := d.trader, decision := d.decision)
    requires Normalize(c.trader) == Normalize(d.trader) && Normalize(c.decision) == Normalize(d.decision)
    ensures Parse(s, c) == Parse(s, d)
  {
    hide Play, MessageEvents, Advance, ReportScript, LatestReports, DebateScript, RiskScript, Normalize, Strip;
  }

  // ---------------------------------------------------------------------------------
  // The objects of the source
  // ---------------------------------------------------------------------------------

  /** `itertools.count(1)`. */
  class Counter {
    var next: nat

    constructor ()
      ensures next == 1
    {
      next := 1;
    }
  }

  class ParserState {
    const mode: Mode
    var msgCount: nat
    var prevReports: map<string, string>
    var prevDebate: Option<Debate>
    var prevTrader: string
    var prevCompliance: string
    var prevRiskManager: string
    var prevConfluence: string
    var prevRisk: Option<Debate>
    var prevDecision: string
    var prevExecutionNotes: string
    var seenInProgress: set<Agent>

    // the chunk being parsed: what was seen and emitted before its branches, and what they did
    ghost var seenBefore: set<Agent>
    ghost var base: seq<Event>
    ghost var done: seq<Action>

    ghost function View(next: Option<nat>): State
      reads this
    {
      State(mode, Memory(msgCount, prevReports, prevDebate, prevTrader, prevCompliance, prevRiskManager,
                         prevConfluence, prevRisk, prevDecision, prevExecutionNotes), seenInProgress, next)
    }

    constructor (mode: Mode)
      ensures View(None) == Initial(mode, None)
    {
      this.mode := mode;
      msgCount, prevReports, prevDebate, prevTrader := 0, map[], None, "";
      prevCompliance, prevRiskManager, prevConfluence, prevRisk := "", "", "", None;
      prevDecision, prevExecutionNotes, seenInProgress := "", "", {};
      seenBefore, base, done := {}, [], [];
    }

    /** The events built so far are what was there before plus what the actions done emit. */
    ghost predicate Logged(events: seq<Event>)
      reads this`seenInProgress, this`seenBefore, this`base, this`done
    {
      (seenInProgress, events) == (Play(seenBefore, done).0, base + Play(seenBefore, done).1)
    }

    /** Appends one action's events and records it. */
    ghost method Record(events: seq<Event>, a: Action)
      requires var ((seen, before), (after, more)) := (Play(seenBefore, done), Do(Play(seenBefore, done).0, a));
               seenInProgress == after && events == base + before + more
      modifies this`done
      ensures Logged(events) && done == old(done) + [a]
    {
      done := done + [a];
      assert done[..|done| - 1] == old(done);
      var before, more := Play(seenBefore, old(done)).1, Do(Play(seenBefore, old(done)).0, a).1;
      assert base + before + more == base + (before + more);
    }

    method EmitStart(events: seq<Event>, agent: Agent) returns (events': seq<Event>)
      requires Logged(events)
      modifies this`seenInProgress, this`done
      ensures Logged(events') && done == old(done) + [Start(agent)]
    {
      seenInProgress := seenInProgress + {agent};
      events' := events + [InProgress(agent)];
      Record(events', Start(agent));
    }

    /** `_ensure_in_progress`, then the completed event. */
    method EmitFinish(events: seq<Event>, agent: Agent) returns (events': seq<Event>)
      requires Logged(events)
      modifies this`seenInProgress, this`done
      ensures Logged(events') && done == old(done) + [Finish(agent)]
    {
      events' := events;
      if agent !in seenInProgress {
        events' := events' + [InProgress(agent)];
      }
      seenInProgress := seenInProgress + {agent};
      events' := events' + [Completed(agent)];
      ghost var before := base + Play(seenBefore, done).1;
      assert events' == before + Do(Play(seenBefore, done).0, Finish(agent)).1;
      Record(events', Finish(agent));
    }

    method EmitReport(events: seq<Event>, section: string, content: string, append: bool) returns (events': seq<Event>)
      requires Logged(events)
      modifies this`done
      ensures Logged(events') && done == old(done) + [Show(section, content, append)]
    {
      events' := events + [Report(section, content, append)];
      Record(events', Show(section, content, append));
    }

    method ParseReport(field: Field, chunk: map<string, string>, events: seq<Event>) returns (events': seq<Event>)
      requires Logged(events)
      modifies this`prevReports, this`seenInProgress, this`done
      ensures Logged(events')
      ensures var val := Strip(Get(chunk, field.0));
              if NewReport(chunk, old(prevReports), field.0)
              then && done == old(done) + [Finish(field.2), Show(field.1, val, false)]
                   && prevReports == old(prevReports)[field.0 := val]
              else done == old(done) && prevReports == old(prevReports)
    {
      hide Logged, Strip;
      events' := events;
      var val := Strip(Get(chunk, field.0));
      if val != "" && val != Get(prevReports, field.0) {
        events' := EmitFinish(events', field.2);
        events' := EmitReport(events', field.1, val, false);
        prevReports := prevReports[field.0 := val];
      }
    }

    method ParseReports(chunk: map<string, string>, events: seq<Event>) returns (events': seq<Event>)
      requires Logged(events)
      modifies this`prevReports, this`seenInProgress, this`done
      ensures Logged(events')
      ensures done == old(done) + ReportScript(ReportFields(mode), chunk, old(prevReports))
      ensures prevReports == LatestReports(ReportFields(mode), chunk, old(prevReports))
    {
      hide Logged, Strip, NewReport, Get, ReportScript, LatestReports;
      events' := events;
      var fields := ReportFields(mode);
      NoReports(chunk, prevReports);
      assert fields[..0] == [];
      for i := 0 to |fields|
        invariant Logged(events')
        invariant done == old(done) + ReportScript(fields[..i], chunk, old(prevReports))
        invariant prevReports == LatestReports(fields[..i], chunk, old(prevReports))
      {
        ReportTurn(fields, i, chunk, old(prevReports));
        events' := ParseReport(fields[i], chunk, events');
        assert done == old(done) + ReportScript(fields[..i + 1], chunk, old(prevReports));
      }
      assert fields[..|fields|] == fields;
    }

    /** The loop over the fields of a debate state. */
    method ParseFields(fields: seq<Field>, d: Option<Debate>, prev: Option<Debate>, events: seq<Event>)
      returns (events': seq<Event>)
      requires Logged(events)
      modifies this`seenInProgress, this`done
      ensures Logged(events') && done == old(done) + FieldScript(fields, d, prev)
    {
      hide Logged, Strip, NewIn;
      events' := events;
      for i := 0 to |fields|
        invariant Logged(events') && done == old(done) + FieldScript(fields[..i], d, prev)
      {
        assert fields[..i + 1][..i] == fields[..i];
        var (field, section, agent) := fields[i];
        if NewIn(d, prev, field) {
          events' := EmitStart(events', agent);
          events' := EmitReport(events', section, TextOf(d, field), true);
        }
        assert done == old(done) + FieldScript(fields[..i + 1], d, prev);
      }
      assert fields[..|fields|] == fields;
    }

    method ParseDebate(d: Option<Debate>, events: seq<Event>) returns (events': seq<Event>)
      requires Logged(events)
      modifies this`prevDebate, this`seenInProgress, this`done
      ensures Logged(events') && done == old(done) + DebateScript(d, old(prevDebate))
      ensures prevDebate == if d.Some? then d else old(prevDebate)
    {
      hide Logged, NewIn, FieldScript;
      events' := events;
      if d.Some? && d != prevDebate {
        events' := ParseFields(DEBATE_FIELDS, d, prevDebate, events');
        if NewIn(d, prevDebate, "judge_decision") {
          events' := EmitFinish(events', "Bull Researcher");
          events' := EmitFinish(events', "Bear Researcher");
          events' := EmitFinish(events', "Research Manager");
          events' := EmitStart(events', "Trader");
        }
        prevDebate := d;
      }
      assert done == old(done) + DebateScript(d, old(prevDebate));
    }

    method ParseTrader(plan: string, events: seq<Event>) returns (events': seq<Event>)
      requires Logged(events)
      modifies this`prevTrader, this`seenInProgress, this`done
      ensures Logged(events') && done == old(done) + TraderScript(mode, plan, old(prevTrader))
      ensures prevTrader == if plan != "" then plan else old(prevTrader)
    {
      hide Logged;
      events' := events;
      if plan != "" && plan != prevTrader {
        events' := EmitReport(events', "trader", plan, false);
        events' := EmitFinish(events', "Trader");
        if mode.quickTrade {
          events' := EmitStart(events', "Risk Manager");
        } else {
          events' := EmitStart(events', "Compliance Officer");
        }
        prevTrader := plan;
      }
      assert done == old(done) + TraderScript(mode, plan, old(prevTrader));
    }

    /** The shape shared by the compliance, risk manager, confluence and execution results. */
    method ParseResult(agent: Agent, section: string, text: Option<string>, prev: string, events: seq<Event>)
      returns (events': seq<Event>, latest: string)
      requires Logged(events)
      modifies this`seenInProgress, this`done
      ensures Logged(events') && done == old(done) + ResultScript(agent, section, text, prev)
      ensures latest == Latest(text, prev)
    {
      hide Logged, Strip;
      events', latest := events, prev;
      if NewText(text, prev) {
        latest := Strip(text.value);
        events' := EmitFinish(events', agent);
        events' := EmitReport(events', section, latest, false);
      }
      assert done == old(done) + ResultScript(agent, section, text, prev);
    }

    method ParseConfluence(text: Option<string>, events: seq<Event>) returns (events': seq<Event>)
      requires Logged(events)
      modifies this`prevConfluence, this`seenInProgress, this`done
      ensures Logged(events') && done == old(done) + ConfluenceScript(text, old(prevConfluence))
      ensures prevConfluence == Latest(text, old(prevConfluence))
    {
      hide Logged, NewText, Latest;
      var latest;
      events', latest := ParseResult("Confluence Checker", "confluence", text, prevConfluence, events);
      if NewText(text, prevConfluence) {
        events' := EmitStart(events', "Bull Researcher");
        events' := EmitStart(events', "Bear Researcher");
      }
      assert done == old(done) + ConfluenceScript(text, prevConfluence);
      prevConfluence := latest;
    }

    method FinishAgents(agents: seq<Agent>, events: seq<Event>) returns (events': seq<Event>)
      requires Logged(events)
      modifies this`seenInProgress, this`done
      ensures Logged(events') && done == old(done) + FinishAll(agents)
    {
      hide Logged;
      events' := events;
      for i := 0 to |agents|
        invariant Logged(events') && done == old(done) + FinishAll(agents[..i])
      {
        assert agents[..i + 1][..i] == agents[..i];
        events' := EmitFinish(events', agents[i]);
        assert done == old(done) + FinishAll(agents[..i + 1]);
      }
      assert agents[..|agents|] == agents;
    }

    method ParseRisk(d: Option<Debate>, events: seq<Event>) returns (events': seq<Event>)
      requires Logged(events)
      modifies this`prevRisk, this`seenInProgress, this`done
      ensures Logged(events') && done == old(done) + RiskScript(mode, d, old(prevRisk))
      ensures prevRisk == if d.Some? && !mode.quickTrade then d else old(prevRisk)
    {
      hide Logged, NewIn, FieldScript, FinishAll, TextOf;
      events' := events;
      if d.Some? && d != prevRisk && !mode.quickTrade {
        events' := ParseFields(RISK_FIELDS, d, prevRisk, events');
        if NewIn(d, prevRisk, "judge_decision") {
          events' := EmitReport(events', "portfolio_manager", TextOf(d, "judge_decision"), false);
          events' := FinishAgents(RISK_AGENTS, events');
          events' := EmitStart(events', "Portfolio Manager");
        }
        prevRisk := d;
      }
      assert done == old(done) + RiskScript(mode, d, old(prevRisk));
    }

    method ParseDecision(c: Chunk, events: seq<Event>) returns (events': seq<Event>)
      requires Logged(events)
      modifies this`prevDecision, this`seenInProgress, this`done
      ensures Logged(events') && done == old(done) + DecisionScript(mode, c, old(prevDecision))
      ensures prevDecision == if NewDecision(c, old(prevDecision)) then Normalize(c.decision) else old(prevDecision)
    {
      hide Logged, Normalize;
      events' := events;
      var decision := Normalize(c.decision);
      if decision != "" && decision != prevDecision && c.risk.None? {
        if !mode.quickTrade {
          events' := EmitReport(events', "portfolio_manager", decision, false);
          events' := EmitFinish(events', "Portfolio Manager");
          events' := EmitStart(events', "Execution Monitor");
        } else {
          events' := EmitReport(events', "final_decision", decision, false);
        }
        prevDecision := decision;
      }
      assert done == old(done) + DecisionScript(mode, c, old(prevDecision));
    }

    /** One turn of the message loop. */
    method ParseMessage(m: Msg, counter: Counter?) returns (events: seq<Event>)
      modifies counter
      ensures events == EventsOf(m, old(NextOf(counter)))
      ensures var next := old(NextOf(counter));
              NextOf(counter) == if next.Some? && HasText(m) then Some(next.value + 1) else next
    {
      hide Strip;
      events := [];
      if m.content.Text? && Strip(m.content.text) != "" {
        var number := 0;
        if counter != null {
          number := counter.next;
          counter.next := counter.next + 1;
        }
        var sender := if m.name.Some? && m.name.value != "" then m.name.value else m.kind;
        events := events + [Message(sender, Strip(m.content.text), number)];
      }
      events := events + ToolEvents(m.tools);
    }

    /** The message part at the head of `parse_stream_chunk`. */
    method ParseMessages(messages: Messages, counter: Counter?) returns (events: seq<Event>)
      modifies this`msgCount, counter
      ensures events == Headline(NewMessages(old(msgCount), messages))
                        + MessageEvents(NewMessages(old(msgCount), messages), old(NextOf(counter)))
      ensures NextOf(counter) == Advance(old(NextOf(counter)), NewMessages(old(msgCount), messages))
      ensures msgCount == if messages.Listed? then |messages.items| else old(msgCount)
    {
      hide EventsOf, HasText, NextOf;
      var ms := if messages.Listed? && msgCount <= |messages.items| then messages.items[msgCount..] else [];
      events := [];
      for i := 0 to |ms|
        invariant events == MessageEvents(ms[..i], old(NextOf(counter)))
        invariant NextOf(counter) == Advance(old(NextOf(counter)), ms[..i])
        invariant msgCount == old(msgCount)
      {
        assert ms[..i + 1][..i] == ms[..i];
        var more := ParseMessage(ms[i], counter);
        events := events + more;
      }
      assert ms[..|ms|] == ms;
      msgCount := if messages.Listed? then |messages.items| else msgCount;
      if ms != [] && Named(ms[|ms| - 1]) {
        events := [InProgress(ms[|ms| - 1].name.value)] + events;
      } else {
        assert [] + events == events;
      }
    }

    ghost function Remembered(): Memory
      reads this
    {
      View(None).memory
    }

    /** The branches up to the risk manager's result. */
    method ParseEarly(c: Chunk, events: seq<Event>) returns (events': seq<Event>)
      requires Logged(events)
      modifies this`prevReports, this`prevDebate, this`prevTrader, this`prevCompliance, this`prevRiskManager,
               this`seenInProgress, this`done
      ensures Logged(events')
      ensures done == old(done) + EarlyScript(mode, old(Remembered()), c)
      ensures var m := Remember(mode, old(Remembered()), c);
              && prevReports == m.reports && prevDebate == m.debate && prevTrader == m.trader
              && prevCompliance == m.compliance && prevRiskManager == m.riskManager
    {
      hide Logged, ReportScript, DebateScript, TraderScript, ResultScript, LatestReports, Latest, NewDecision;
      hide Normalize, ReportFields;
      events' := ParseReports(c.reports, events);
      events' := ParseDebate(c.debate, events');
      events' := ParseTrader(Normalize(c.trader), events');
      events', prevCompliance := ParseResult("Compliance Officer", "compliance", c.compliance, prevCompliance, events');
      events', prevRiskManager := ParseResult("Risk Manager", "risk_manager", c.riskManager, prevRiskManager, events');
      assert done == old(done) + EarlyScript(mode, old(Remembered()), c);
    }

    /** The branches from the confluence summary on. */
    method ParseLate(c: Chunk, events: seq<Event>) returns (events': seq<Event>)
      requires Logged(events)
      modifies this`prevConfluence, this`prevRisk, this`prevDecision, this`prevExecutionNotes,
               this`seenInProgress, this`done
      ensures Logged(events')
      ensures done == old(done) + LateScript(mode, old(Remembered()), c)
      ensures var m := Remember(mode, old(Remembered()), c);
              && prevConfluence == m.confluence && prevRisk == m.risk
              && prevDecision == m.decision && prevExecutionNotes == m.executionNotes
    {
      hide Logged, ConfluenceScript, RiskScript, DecisionScript, ResultScript, LatestReports, Latest, NewDecision;
      hide Normalize, ReportFields;
      events' := ParseConfluence(c.confluence, events);
      events' := ParseRisk(c.risk, events');
      events' := ParseDecision(c, events');
      events', prevExecutionNotes :=
        ParseResult("Execution Monitor", "execution_monitor", c.executionNotes, prevExecutionNotes, events');
      assert done == old(done) + LateScript(mode, old(Remembered()), c);
    }

    /** Everything after the messages. */
    method ParseBranches(c: Chunk, events: seq<Event>) returns (events': seq<Event>)
      requires Logged(events)
      modifies this`prevReports, this`prevDebate, this`prevTrader, this`prevCompliance, this`prevRiskManager,
               this`prevConfluence, this`prevRisk, this`prevDecision, this`prevExecutionNotes,
               this`seenInProgress, this`done
      ensures Logged(events')
      ensures done == old(done) + Script(mode, old(Remembered()), c)
      ensures Remembered() == Remember(mode, old(Remembered()), c).(count := msgCount)
    {
      hide Logged, EarlyScript, LateScript, LatestReports, Latest, NewDecision, Normalize, ReportFields;
      ghost var m := Remembered();
      events' := ParseEarly(c, events);
      LateIgnoresEarly(mode, m, Remembered(), c);
      events' := ParseLate(c, events');
      assert done == old(done) + Script(mode, m, c);
    }

    method ParseStreamChunk(c: Chunk, counter: Counter?) returns (events: seq<Event>)
      modifies this, counter
      ensures (View(NextOf(counter)), events) == Parse(old(View(NextOf(counter))), c)
    {
      hide Play, Script, Remember, MessageEvents, Advance, Headline, NewMessages;
      ghost var m := Remembered();
      events := ParseMessages(c.messages, counter);
      seenBefore, base, done := seenInProgress, events, [];
      NothingPlayed(seenBefore);
      assert base + [] == base;
      CountIsIrrelevant(mode, m, c, msgCount);
      events := ParseBranches(c, events);
      assert done == Script(mode, m, c);
    }
  }

  /** The branches after the messages do not read the message count. */
  lemma CountIsIrrelevant(mode: Mode, m: Memory, c: Chunk, n: nat)
    requires n == if c.messages.Listed? then |c.messages.items| else m.count
    ensures Script(mode, m.(count := n), c) == Script(mode, m, c)
    ensures Remember(mode, m.(count := n), c).(count := n) == Remember(mode, m, c)
  {
  }

  lemma LateIgnoresEarly(mode: Mode, m: Memory, m': Memory, c: Chunk)
    requires m.confluence == m'.confluence && m.risk == m'.risk
    requires m.decision == m'.decision && m.executionNotes == m'.executionNotes
    ensures LateScript(mode, m, c) == LateScript(mode, m', c)
    ensures var (r, r') := (Remember(mode, m, c), Remember(mode, m', c));
            && r.confluence == r'.confluence && r.risk == r'.risk
            && r.decision == r'.decision && r.executionNotes == r'.executionNotes
  {
  }

  ghost function NextOf(counter: Counter?): Option<nat>
    reads counter
  {
    if counter == null then None else Some(counter.next)
  }

  lemma NothingPlayed(seen: set<Agent>)
    ensures Play(seen, []) == (seen, [])
  {
  }
}
