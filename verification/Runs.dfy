/** Whole runs of the machine, and what can be read off them. */
module Runs {
  import opened Results
  import opened Accounts
  import opened TokenProgram
  import opened Machine

  /** A run: a starting state and the steps taken since. Aborted steps are part of it and change nothing. */
  datatype Run = Boot(start: State) | After(prev: Run, step: Step)

  function End(run: Run): State {
    match run
    case Boot(start) => start
    case After(prev, step) => Next(End(prev), step)
  }

  function Origin(run: Run): State {
    match run
    case Boot(start) => start
    case After(prev, _) => Origin(prev)
  }

  /** Is `base` an earlier stage of `run`, or `run` itself? */
  predicate Extends(run: Run, base: Run) {
    run == base || (run.After? && Extends(run.prev, base))
  }

  /** An account at an associated address has that authority and mint; balances add up to the mint's supply. */
  ghost predicate TokensSound(s: State) {
    && (forall a :: a in s.tokens ==> s.tokens[a].mint in s.supply)
    && (forall a :: a in s.tokens && a.Ata? ==> s.tokens[a].owner == a.authority && s.tokens[a].mint == a.mint)
    && (forall m :: m in s.supply ==> Held(s.tokens, m) == s.supply[m])
  }

  /** Before the program is first called: any clock, any tokens in circulation, none of the program's accounts. */
  ghost predicate Genesis(s: State) {
    && 0 <= s.now <= MAX_CLOCK
    && s.config == None
    && s.wallets == map[]
    && s.policies == map[]
    && s.records == map[]
    && TokensSound(s)
  }

  ghost predicate Valid(run: Run) {
    Genesis(Origin(run))
  }

  /** Does this step register the agent, starting a new incarnation of its wallet? */
  predicate Registers(s: State, step: Step, agent: AgentId) {
    Applies(s, step) && step.Call? && step.instruction.RegisterAgent? && step.instruction.agent == agent
  }

  /** Does this step set the agent's spend policy? */
  predicate SetsPolicy(s: State, step: Step, agent: AgentId) {
    Applies(s, step) && step.Call? && step.instruction.SetSpendPolicy? && step.instruction.agent == agent
  }

  /** When the current incarnation of the wallet was registered; the anchor of its three grids. */
  function RegisteredAt(run: Run, agent: AgentId): int {
    match run
    case Boot(_) => 0
    case After(prev, step) => if Registers(End(prev), step, agent) then End(prev).now else RegisteredAt(prev, agent)
  }

  /** When the agent's current policy was set. */
  function PolicySetAt(run: Run, agent: AgentId): int {
    match run
    case Boot(_) => 0
    case After(prev, step) => if SetsPolicy(End(prev), step, agent) then End(prev).now else PolicySetAt(prev, agent)
  }

  /** Number of incarnations the agent's wallet has had. */
  function Incarnations(run: Run, agent: AgentId): nat {
    match run
    case Boot(_) => 0
    case After(prev, step) => Incarnations(prev, agent) + if Registers(End(prev), step, agent) then 1 else 0
  }

  // ----- The records of one agent -----

  ghost function KeysOf(records: Records, agent: AgentId): set<RecordKey> {
    set k | k in records && k.agent == agent
  }

  ghost function Count(records: Records, agent: AgentId): nat {
    |KeysOf(records, agent)|
  }

  /** The agent's record keys are exactly zero up to their number. */
  ghost predicate GapFree(records: Records, agent: AgentId) {
    forall i: nat :: RecordKey(agent, i) in records <==> i < Count(records, agent)
  }

  /** The agent's records in sequence order. */
  ghost function History(records: Records, agent: AgentId): (h: seq<Record>)
    requires GapFree(records, agent)
    ensures |h| == Count(records, agent)
    ensures forall i :: 0 <= i < |h| ==> h[i] == records[RecordKey(agent, i)]
  {
    seq(Count(records, agent), i requires 0 <= i < Count(records, agent) => records[RecordKey(agent, i)])
  }

  /** How many records existed when the agent's current policy was set. */
  ghost function PolicySince(run: Run, agent: AgentId): nat {
    match run
    case Boot(_) => 0
    case After(prev, step) =>
      if SetsPolicy(End(prev), step, agent) then Count(End(prev).records, agent) else PolicySince(prev, agent)
  }

  /** A record at the next free key makes the history one longer. */
  lemma HistoryGrows(records: Records, agent: AgentId, r: Record)
    requires GapFree(records, agent)
    ensures var records' := records[RecordKey(agent, Count(records, agent)) := r];
            && Count(records', agent) == Count(records, agent) + 1
            && GapFree(records', agent)
            && History(records', agent) == History(records, agent) + [r]
  {
    var key := RecordKey(agent, Count(records, agent));
    assert key !in records;
    assert KeysOf(records[key := r], agent) == KeysOf(records, agent) + {key};
  }

  /** An agent's history depends on its own records only. */
  lemma HistoryFrame(records: Records, records': Records, agent: AgentId)
    requires forall k: RecordKey :: k.agent == agent ==>
               (k in records <==> k in records') && (k in records ==> records[k] == records'[k])
    ensures Count(records', agent) == Count(records, agent)
    ensures GapFree(records', agent) == GapFree(records, agent)
    ensures GapFree(records, agent) ==> History(records', agent) == History(records, agent)
  {
    assert KeysOf(records', agent) == KeysOf(records, agent);
  }
}
