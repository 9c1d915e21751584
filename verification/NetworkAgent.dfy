/** The agent that answers NetworkManager's calls for secrets, from the keyring or by asking the user. */
module NetworkAgent {
  import opened Options
  import opened Sequences

  const VPN_SETTING_NAME := "vpn"
  const VPN_SECRETS := "secrets"

  datatype Flags = Flags(requestNew: bool, allowInteraction: bool)

  datatype Pair = Pair(key: string, secret: string)

  datatype Value = Text(text: string) | Hash(pairs: seq<Pair>)

  type Entries = map<string, Value>

  /** An item of the keyring; its secret is missing if the user did not unlock it. */
  datatype Item = Item(secret: Option<string>, key: Option<string>)

  datatype KeyringResult = Failure | Items(items: seq<Item>)

  datatype Response = Confirmed | UserCanceled | InternalError

  datatype Answer =
    | AgentCanceled
    | GoingAway
    | SearchFailed
    | CanceledByUser
    | FailedInternally
    | FromKeyring(pairs: seq<Pair>)
    | FromUser(entries: Entries)

  /**
   A request, made for one call. It has `entries` from when the user is asked for them on; `searching` means that its
   search of the keyring has not reported yet, and `cancelled` that the request was freed, which cancels the search.
  */
  datatype Request = Request(
    id: string, setting: string, flags: Flags,
    searching: bool, cancelled: bool, entries: Option<Entries>, vpn: seq<Pair>)

  datatype Reply = Reply(call: nat, answer: Answer)

  /** What the user interface hears: that the user is to be asked, and that this is withdrawn. */
  datatype Signal = Requested(id: string) | Withdrawn(id: string)

  /**
   `requests` are all requests ever made, one per call; `table` finds those that wait for an answer. `replies`,
   `saves` and `signals` are what was reported, handed to the keyring and emitted so far. A confirmation for a request
   without entries has the program `aborted`.
  */
  datatype State = State(
    requests: seq<Request>, table: map<string, nat>, replies: seq<Reply>, saves: seq<Entries>,
    signals: seq<Signal>, aborted: bool)

  const INITIAL := State([], map[], [], [], [], false)

  predicate TableOk(s: State) {
    forall id | id in s.table :: s.table[id] < |s.requests| && s.requests[s.table[id]].id == id
  }

  function RequestId(path: string, setting: string): string {
    path + "/" + setting
  }

  // ---------------------------------------------------------------- the operations

  function Answered(s: State, call: nat, answer: Answer): State {
    s.(replies := s.replies + [Reply(call, answer)])
  }

  function Emitted(s: State, signal: Signal): State {
    s.(signals := s.signals + [signal])
  }

  /** Takes a request out of the table and frees it. */
  function Removed(s: State, id: string): State
    requires TableOk(s)
  {
    if id !in s.table then s
    else
      var call := s.table[id];
      s.(requests := s.requests[call := s.requests[call].(cancelled := true)], table := s.table - {id})
  }

  function Canceled(s: State, id: string): State
    requires TableOk(s)
  {
    if id in s.table then Removed(Emitted(Answered(s, s.table[id], AgentCanceled), Withdrawn(id)), id) else s
  }

  function AsksAtOnce(flags: Flags, alwaysAsk: bool): bool {
    flags.requestNew || (flags.allowInteraction && alwaysAsk)
  }

  function NewRequest(id: string, setting: string, flags: Flags, asks: bool): Request {
    Request(id, setting, flags, !asks, false, if asks then Some(map[]) else None, [])
  }

  /** A call supersedes the one that waits under the same id. */
  function AfterCall(s: State, path: string, setting: string, flags: Flags, alwaysAsk: bool): State
    requires TableOk(s)
  {
    var id := RequestId(path, setting);
    var asks := AsksAtOnce(flags, alwaysAsk);
    var s1 := Canceled(s, id);
    var s2 := s1.(requests := s1.requests + [NewRequest(id, setting, flags, asks)],
                  table := s1.table[id := |s1.requests|]);
    if asks then Emitted(s2, Requested(id)) else s2
  }

  function Found(items: seq<Item>): seq<Pair> {
    if items == [] then []
    else
      var item := items[|items| - 1];
      Found(items[..|items| - 1])
      + if item.secret.Some? && item.key.Some? then [Pair(item.key.value, item.secret.value)] else []
  }

  function Dict(pairs: seq<Pair>): Entries {
    if pairs == [] then map[]
    else Dict(pairs[..|pairs| - 1])[pairs[|pairs| - 1].key := Text(pairs[|pairs| - 1].secret)]
  }

  predicate NeedsUser(r: Request, found: seq<Pair>) {
    r.setting == VPN_SETTING_NAME || (found == [] && r.flags.allowInteraction)
  }

  /** The search for a call reports; if it was cancelled, nothing else is done. */
  function AfterReport(s: State, call: nat, result: KeyringResult): State
    requires TableOk(s) && call < |s.requests|
  {
    var r := s.requests[call];
    var s1 := s.(requests := s.requests[call := r.(searching := false)]);
    if r.cancelled then s1
    else if result.Failure? then Removed(Answered(s1, call, SearchFailed), r.id)
    else
      var found := Found(result.items);
      if NeedsUser(r, found) then
        Emitted(s.(requests := s.requests[call := r.(searching := false, entries := Some(Dict(found)))]),
                Requested(r.id))
      else Removed(Answered(s1, call, FromKeyring(found)), r.id)
  }

  /** Without entries to enter it into, a password is dropped. */
  function WithPassword(s: State, id: string, key: string, secret: string): State
    requires TableOk(s)
  {
    if id !in s.table || s.requests[s.table[id]].entries.None? then s
    else
      var call := s.table[id];
      var r := s.requests[call];
      s.(requests := s.requests[call := r.(entries := Some(r.entries.value[key := Text(secret)]))])
  }

  function WithVpnSecret(s: State, id: string, key: string, secret: string): State
    requires TableOk(s)
  {
    if id !in s.table then s
    else
      var call := s.table[id];
      var r := s.requests[call];
      s.(requests := s.requests[call := r.(vpn := r.vpn + [Pair(key, secret)])])
  }

  /** What the user entered; the secrets of a VPN are one entry. */
  function Entered(r: Request): Entries
    requires r.entries.Some?
  {
    if r.vpn == [] then r.entries.value else r.entries.value[VPN_SECRETS := Hash(r.vpn)]
  }

  function Responded(s: State, id: string, response: Response): State
    requires TableOk(s)
  {
    if id !in s.table then s
    else
      var call := s.table[id];
      var r := s.requests[call];
      match response
      case UserCanceled => Removed(Answered(s, call, CanceledByUser), id)
      case InternalError => Removed(Answered(s, call, FailedInternally), id)
      case Confirmed =>
        if r.entries.None? then s.(aborted := true)
        else
          var s1 := if r.flags.allowInteraction || r.flags.requestNew then s.(saves := s.saves + [Entered(r)]) else s;
          Removed(Answered(s1, call, FromUser(Entered(r))), id)
  }

  function GoneAway(s: State, id: string): State
    requires TableOk(s)
  {
    if id in s.table then Removed(Answered(s, s.table[id], GoingAway), id) else s
  }

  /**
   The agent goes away; the table is walked in some order. A pending request holds a reference to the agent, so that
   the table is in fact empty when this happens; the walk is right for any table.
  */
  function Finalized(s: State, order: seq<string>): State
    requires TableOk(s)
    ensures TableOk(Finalized(s, order))
  {
    if order == [] then s else GoneAway(Finalized(s, order[..|order| - 1]), order[|order| - 1])
  }

  datatype Step =
    | Call(path: string, setting: string, flags: Flags, alwaysAsk: bool)
    | Reports(call: nat, result: KeyringResult)
    | Password(id: string, key: string, secret: string)
    | VpnSecret(id: string, key: string, secret: string)
    | Responds(id: string, response: Response)
    | Cancels(path: string, setting: string)
    | Finalizes(order: seq<string>)

  /** A search reports once, and nothing happens after the program was aborted. */
  predicate Enabled(s: State, step: Step) {
    && TableOk(s) && !s.aborted
    && match step
       case Reports(call, _) => call < |s.requests| && s.requests[call].searching
       case Finalizes(order) => forall id | id in s.table :: id in order
       case _ => true
  }

  function Next(s: State, step: Step): State
    requires Enabled(s, step)
  {
    match step
    case Call(path, setting, flags, alwaysAsk) => AfterCall(s, path, setting, flags, alwaysAsk)
    case Reports(call, result) => AfterReport(s, call, result)
    case Password(id, key, secret) => WithPassword(s, id, key, secret)
    case VpnSecret(id, key, secret) => WithVpnSecret(s, id, key, secret)
    case Responds(id, response) => Responded(s, id, response)
    case Cancels(path, setting) => Canceled(s, RequestId(path, setting))
    case Finalizes(order) => Finalized(s, order)
  }

  // ---------------------------------------------------------------- the invariant

  function Times(replies: seq<Reply>, call: nat): nat {
    if replies == [] then 0
    else Times(replies[..|replies| - 1], call) + if replies[|replies| - 1].call == call then 1 else 0
  }

  /** The call waits for its answer. */
  predicate Pending(s: State, call: nat) {
    && call < |s.requests|
    && s.requests[call].id in s.table
    && s.table[s.requests[call].id] == call
  }

  /** A pending request is searched for or asked for, and a search that was not cancelled is for a pending request. */
  predicate RequestsOk(s: State) {
    forall call: nat | call < |s.requests| :: RequestOk(s, call)
  }

  predicate RequestOk(s: State, call: nat)
    requires call < |s.requests|
  {
    && (s.requests[call].cancelled <==> !Pending(s, call))
    && (Pending(s, call) ==> s.requests[call].searching != s.requests[call].entries.Some?)
  }

  /** Every call so far was answered once, or is still pending and was not answered. */
  ghost predicate AnsweredOnce(s: State) {
    forall call: nat :: Times(s.replies, call) == if call < |s.requests| && !Pending(s, call) then 1 else 0
  }

  ghost predicate Good(s: State) {
    TableOk(s) && RequestsOk(s) && AnsweredOnce(s)
  }

  lemma TimesAppend(replies: seq<Reply>, reply: Reply, call: nat)
    ensures Times(replies + [reply], call) == Times(replies, call) + if reply.call == call then 1 else 0
  {
    assert (replies + [reply])[..|replies|] == replies;
  }

  /** Answering the call that waits under an id and removing it. */
  lemma AnswerAndRemove(s: State, id: string, answer: Answer)
    requires TableOk(s) && AnsweredOnce(s) && id in s.table
    requires forall c: nat | c < |s.requests| && c != s.table[id] :: RequestOk(s, c)
    ensures var s' := Removed(Answered(s, s.table[id], answer), id);
            && Good(s') && |s'.requests| == |s.requests| && s'.table == s.table - {id}
            && s'.requests[s.table[id]].cancelled
            && (forall c: nat | c < |s.requests| && c != s.table[id] :: s'.requests[c] == s.requests[c])
            && (forall c: nat :: Pending(s', c) <==> Pending(s, c) && c != s.table[id])
  {
    hide Times;
    var call := s.table[id];
    var s' := Removed(Answered(s, call, answer), id);
    forall c: nat ensures Times(s'.replies, c) == Times(s.replies, c) + if c == call then 1 else 0 {
      TimesAppend(s.replies, Reply(call, answer), c);
    }
    assert Pending(s, call);
    forall c: nat ensures Pending(s', c) <==> Pending(s, c) && c != call {
    }
    forall c: nat | c < |s'.requests| ensures RequestOk(s', c) {
      assert c != call ==> RequestOk(s, c);
    }
  }

  lemma CanceledKeeps(s: State, id: string)
    requires Good(s)
    ensures var s' := Canceled(s, id);
            && Good(s') && |s'.requests| == |s.requests| && s'.table == s.table - {id}
            && (forall c: nat | c < |s.requests| && s.requests[c].id != id :: s'.requests[c] == s.requests[c])
            && (forall c: nat :: Pending(s', c) <==> Pending(s, c) && s.requests[c].id != id)
  {
    hide AnsweredOnce;
    if id in s.table {
      var s1 := Emitted(s, Withdrawn(id));
      SameStanding(s, s1, s.table[id]);
      AnswerAndRemove(s1, id, AgentCanceled);
    }
  }

  lemma AfterCallKeeps(s: State, path: string, setting: string, flags: Flags, alwaysAsk: bool)
    requires Good(s)
    ensures var s', n, id := AfterCall(s, path, setting, flags, alwaysAsk), |s.requests|, RequestId(path, setting);
            && Good(s') && Pending(s', n)
            && (forall c: nat | c != n :: Pending(s', c) <==> Pending(s, c) && s.requests[c].id != id)
            && (forall c: nat | c < n && s.requests[c].id != id :: s'.requests[c] == s.requests[c])
  {
    hide Times;
    var id := RequestId(path, setting);
    CanceledKeeps(s, id);
    var s1, s' := Canceled(s, id), AfterCall(s, path, setting, flags, alwaysAsk);
    forall c: nat | c != |s.requests| ensures Pending(s', c) <==> Pending(s1, c) {
    }
    forall c: nat | c < |s'.requests| ensures RequestOk(s', c) {
      if c < |s.requests| {
        assert RequestOk(s1, c);
      }
    }
  }

  /** A search reports for its own call only, however often the id was used again meanwhile. */
  lemma AfterReportKeeps(s: State, call: nat, result: KeyringResult)
    requires Good(s) && call < |s.requests| && s.requests[call].searching
    ensures var s' := AfterReport(s, call, result);
            && Good(s') && |s'.requests| == |s.requests|
            && (forall c: nat | c < |s.requests| && c != call :: s'.requests[c] == s.requests[c])
            && (forall c: nat | c != call :: Pending(s', c) <==> Pending(s, c))
            && (!Pending(s, call) ==> s'.replies == s.replies && s'.table == s.table)
            && (Pending(s, call) && !Pending(s', call) ==>
                  exists answer :: s'.replies == s.replies + [Reply(call, answer)])
            && (Pending(s', call) ==> s'.requests[call].entries.Some? && s'.replies == s.replies)
  {
    hide Times, Found, Dict;
    var r, s' := s.requests[call], AfterReport(s, call, result);
    assert RequestOk(s, call);
    var s1 := s.(requests := s.requests[call := r.(searching := false)]);
    SameStanding(s, s1, call);
    if !r.cancelled {
      if result.Failure? {
        AnswerAndRemove(s1, r.id, SearchFailed);
      } else if NeedsUser(r, Found(result.items)) {
        SameStanding(s, s', call);
      } else {
        AnswerAndRemove(s1, r.id, FromKeyring(Found(result.items)));
      }
    }
  }

  /** Only one request changes, and neither its id nor whether it was freed. */
  lemma SameStanding(s: State, s': State, call: nat)
    requires Good(s) && call < |s.requests|
    requires s'.table == s.table && s'.replies == s.replies && |s'.requests| == |s.requests|
    requires forall c | 0 <= c < |s.requests| && c != call :: s'.requests[c] == s.requests[c]
    requires s'.requests[call].id == s.requests[call].id && s'.requests[call].cancelled == s.requests[call].cancelled
    ensures TableOk(s') && AnsweredOnce(s')
    ensures forall c: nat :: Pending(s', c) <==> Pending(s, c)
    ensures forall c: nat | c < |s.requests| && c != call :: RequestOk(s', c)
    ensures RequestOk(s', call)
            <==> (Pending(s, call) ==> s'.requests[call].searching != s'.requests[call].entries.Some?)
  {
    hide Times;
    forall c: nat ensures Pending(s', c) <==> Pending(s, c) {
    }
    forall c: nat | c < |s.requests| && c != call ensures RequestOk(s', c) {
      assert RequestOk(s, c);
    }
    assert RequestOk(s, call);
  }

  lemma EnteringKeeps(s: State, id: string, key: string, secret: string)
    requires Good(s)
    ensures Good(WithPassword(s, id, key, secret)) && Good(WithVpnSecret(s, id, key, secret))
    ensures forall c: nat :: Pending(WithPassword(s, id, key, secret), c) <==> Pending(s, c)
    ensures forall c: nat :: Pending(WithVpnSecret(s, id, key, secret), c) <==> Pending(s, c)
  {
    hide Times, AnsweredOnce;
    if id in s.table {
      assert RequestOk(s, s.table[id]);
      SameStanding(s, WithPassword(s, id, key, secret), s.table[id]);
      SameStanding(s, WithVpnSecret(s, id, key, secret), s.table[id]);
    }
  }

  lemma RespondedKeeps(s: State, id: string, response: Response)
    requires Good(s) && !s.aborted
    ensures var s' := Responded(s, id, response);
            && Good(s') && |s'.requests| == |s.requests|
            && (!s'.aborted ==> forall c: nat :: Pending(s', c) <==> Pending(s, c) && s.requests[c].id != id)
            && (s'.aborted ==> s' == s.(aborted := true))
            && (forall c: nat | c < |s.requests| && s.requests[c].id != id :: s'.requests[c] == s.requests[c])
  {
    hide Times, Entered;
    if id in s.table {
      var call := s.table[id];
      var r := s.requests[call];
      match response {
        case UserCanceled => AnswerAndRemove(s, id, CanceledByUser);
        case InternalError => AnswerAndRemove(s, id, FailedInternally);
        case Confirmed =>
          assert RequestOk(s, call);
          if r.entries.None? {
            SameStanding(s, s.(aborted := true), call);
          } else {
            var s1 := if r.flags.allowInteraction || r.flags.requestNew then s.(saves := s.saves + [Entered(r)]) else s;
            SameStanding(s, s1, call);
            AnswerAndRemove(s1, id, FromUser(Entered(r)));
          }
      }
    }
  }

  lemma {:induction false} FinalizedKeeps(s: State, order: seq<string>)
    requires Good(s)
    ensures var s' := Finalized(s, order);
            && Good(s') && |s'.requests| == |s.requests|
            && (forall id :: id in s'.table <==> id in s.table && id !in order)
  {
    hide AnsweredOnce;
    if order != [] {
      var before, id := order[..|order| - 1], order[|order| - 1];
      FinalizedKeeps(s, before);
      assert order == before + [id];
      var s1 := Finalized(s, before);
      if id in s1.table {
        AnswerAndRemove(s1, id, GoingAway);
      }
    }
  }

  lemma NextKeeps(s: State, step: Step)
    requires Good(s) && Enabled(s, step)
    ensures Good(Next(s, step))
  {
    hide Good, Removed, Times, Pending, Finalized, AfterReport, AfterCall, Responded, WithPassword, WithVpnSecret;
    match step
    case Call(path, setting, flags, alwaysAsk) => AfterCallKeeps(s, path, setting, flags, alwaysAsk);
    case Reports(call, result) => AfterReportKeeps(s, call, result);
    case Password(id, key, secret) => EnteringKeeps(s, id, key, secret);
    case VpnSecret(id, key, secret) => EnteringKeeps(s, id, key, secret);
    case Responds(id, response) => RespondedKeeps(s, id, response);
    case Cancels(path, setting) => CanceledKeeps(s, RequestId(path, setting));
    case Finalizes(order) => FinalizedKeeps(s, order);
  }

  // ---------------------------------------------------------------- runs

  /** What comes out of a run; a step that is not possible is left out. */
  function After(steps: seq<Step>): State {
    if steps == [] then INITIAL
    else
      var s, step := After(steps[..|steps| - 1]), steps[|steps| - 1];
      if Enabled(s, step) then Next(s, step) else s
  }

  predicate Run(steps: seq<Step>) {
    forall n | 0 <= n < |steps| :: Enabled(After(steps[..n]), steps[n])
  }

  lemma {:induction false} AllRunsAreGood(steps: seq<Step>)
    requires Run(steps)
    ensures Good(After(steps))
    decreases |steps|
  {
    hide Good, Next, Enabled;
    if steps == [] {
      InitialIsGood();
    } else {
      var n := |steps| - 1;
      PrefixIsRun(steps, n);
      AllRunsAreGood(steps[..n]);
      NextKeeps(After(steps[..n]), steps[n]);
    }
  }

  lemma PrefixIsRun(steps: seq<Step>, n: nat)
    requires Run(steps) && n <= |steps|
    ensures Run(steps[..n])
  {
    hide Enabled, After;
    assert forall i | 0 <= i < n :: steps[..n][..i] == steps[..i];
  }

  lemma AfterOneMore(steps: seq<Step>, n: nat)
    requires Run(steps) && n < |steps|
    ensures After(steps[..n + 1]) == Next(After(steps[..n]), steps[n])
  {
    hide Enabled, Next;
    assert steps[..n + 1][..n] == steps[..n];
  }

  lemma InitialIsGood()
    ensures Good(INITIAL)
  {
  }

  /** In every run, the answers to a call and its being pending always add up to one. */
  lemma ExactlyOnce(steps: seq<Step>, call: nat)
    requires Run(steps) && call < |After(steps).requests|
    ensures Times(After(steps).replies, call) + (if Pending(After(steps), call) then 1 else 0) == 1
  {
    AllRunsAreGood(steps);
  }

  /** Once the agent is gone, no call is left without its answer. */
  lemma AllAnsweredInTheEnd(steps: seq<Step>, order: seq<string>)
    requires Run(steps) && Enabled(After(steps), Finalizes(order))
    ensures var s, s' := After(steps), Next(After(steps), Finalizes(order));
            s'.table == map[] && forall call: nat | call < |s.requests| :: Times(s'.replies, call) == 1
  {
    hide After;
    var s := After(steps);
    AllRunsAreGood(steps);
    FinalizedKeeps(s, order);
    var s' := Finalized(s, order);
    assert forall id :: id !in s'.table;
  }

  /** A search that was superseded changes nothing for the newer call that waits under the same id. */
  lemma SupersededSearchIsHarmless(steps: seq<Step>, former: nat, newer: nat, result: KeyringResult)
    requires Run(steps) && Enabled(After(steps), Reports(former, result)) && former != newer
    requires var s := After(steps); Pending(s, newer) && s.requests[newer].id == s.requests[former].id
    ensures var s, s' := After(steps), Next(After(steps), Reports(former, result));
            && s'.replies == s.replies && s'.table == s.table && Pending(s', newer)
            && s'.requests[newer] == s.requests[newer]
  {
    hide Good, After;
    AllRunsAreGood(steps);
    AfterReportKeeps(After(steps), former, result);
  }

  /** Names of settings hold no slash, so that different settings never share an id. */
  lemma RequestIdsDiffer(path1: string, setting1: string, path2: string, setting2: string)
    requires '/' !in setting1 && '/' !in setting2
    requires RequestId(path1, setting1) == RequestId(path2, setting2)
    ensures path1 == path2 && setting1 == setting2
  {
    LastSlash(path1, setting1);
    LastSlash(path2, setting2);
    var id := RequestId(path1, setting1);
    assert |path1| == |path2|;
    assert path1 == id[..|path1|] && path2 == id[..|path1|];
    assert setting1 == id[|path1| + 1..] && setting2 == id[|path1| + 1..];
  }

  lemma LastSlash(path: string, setting: string)
    requires '/' !in setting
    ensures var id := RequestId(path, setting);
            id[|path|] == '/' && forall i | |path| < i < |id| :: id[i] != '/'
  {
    var id := RequestId(path, setting);
    forall i | |path| < i < |id| ensures id[i] != '/' {
      assert id[i] == setting[i - |path| - 1];
    }
  }

  // ---------------------------------------------------------------- prompts

  /** A user interface opens a prompt when it is requested, and closes it when it is withdrawn. */
  function HeardOf(prompts: set<string>, signal: Signal): set<string> {
    match signal
    case Requested(id) => prompts + {id}
    case Withdrawn(id) => prompts - {id}
  }

  function Heard(prompts: set<string>, signals: seq<Signal>): set<string> {
    if signals == [] then prompts
    else HeardOf(Heard(prompts, signals[..|signals| - 1]), signals[|signals| - 1])
  }

  /**
   The prompts that are open after a step. The user interface also closes a prompt when it responds, and all of them
   before the agent goes away, which they hold on to.
  */
  function PromptsAfter(prompts: set<string>, s: State, step: Step, s': State): set<string> {
    match step
    case Responds(id, _) => Heard(prompts, NewSignals(s, s')) - {id}
    case Finalizes(_) => {}
    case _ => Heard(prompts, NewSignals(s, s'))
  }

  function Prompts(steps: seq<Step>): set<string> {
    if steps == [] then {}
    else
      var before := steps[..|steps| - 1];
      PromptsAfter(Prompts(before), After(before), steps[|steps| - 1], After(steps))
  }

  /** What was emitted between two states of a run. */
  function NewSignals(s: State, s': State): seq<Signal> {
    if |s.signals| <= |s'.signals| then s'.signals[|s.signals|..] else []
  }

  /** The user is being asked for the request that waits under `id`. */
  predicate Asked(s: State, id: string)
    requires TableOk(s)
  {
    id in s.table && s.requests[s.table[id]].entries.Some?
  }

  /** `prompts` are those for which the user is being asked. */
  ghost predicate PromptsAsked(s: State, prompts: set<string>) {
    TableOk(s) && forall id :: id in prompts <==> Asked(s, id)
  }

  lemma HeardOne(prompts: set<string>, signal: Signal, s: State, s': State)
    requires s'.signals == s.signals + [signal]
    ensures Heard(prompts, NewSignals(s, s')) == HeardOf(prompts, signal)
  {
    assert NewSignals(s, s') == [signal];
  }

  lemma HeardTwo(prompts: set<string>, id: string, s: State, s': State)
    requires s'.signals == s.signals + [Withdrawn(id), Requested(id)]
    ensures Heard(prompts, NewSignals(s, s')) == prompts + {id}
  {
    assert NewSignals(s, s') == [Withdrawn(id), Requested(id)];
    assert [Withdrawn(id), Requested(id)][..1] == [Withdrawn(id)];
    assert Heard(prompts, [Withdrawn(id)]) == prompts - {id};
  }

  lemma HeardNothing(prompts: set<string>, s: State, s': State)
    requires s'.signals == s.signals
    ensures Heard(prompts, NewSignals(s, s')) == prompts
  {
    assert NewSignals(s, s') == [];
  }

  lemma CanceledIsHeard(s: State, id: string, prompts: set<string>)
    requires PromptsAsked(s, prompts)
    ensures var s' := Canceled(s, id);
            && PromptsAsked(s', prompts - {id})
            && s'.signals == s.signals + if id in s.table then [Withdrawn(id)] else []
  {
  }

  lemma CallIsHeard(s: State, path: string, setting: string, flags: Flags, alwaysAsk: bool, prompts: set<string>)
    requires PromptsAsked(s, prompts)
    ensures var s' := AfterCall(s, path, setting, flags, alwaysAsk);
            PromptsAsked(s', Heard(prompts, NewSignals(s, s')))
  {
    hide Canceled, Heard, NewSignals;
    var id, s' := RequestId(path, setting), AfterCall(s, path, setting, flags, alwaysAsk);
    var s1 := Canceled(s, id);
    CanceledIsHeard(s, id, prompts);
    forall x | x != id ensures Asked(s', x) <==> Asked(s1, x) {
    }
    if AsksAtOnce(flags, alwaysAsk) {
      if id in s.table {
        assert s'.signals == s.signals + [Withdrawn(id), Requested(id)];
        HeardTwo(prompts, id, s, s');
      } else {
        HeardOne(prompts, Requested(id), s, s');
      }
    } else if id in s.table {
      HeardOne(prompts, Withdrawn(id), s, s');
    } else {
      HeardNothing(prompts, s, s');
    }
  }

  lemma ReportIsHeard(s: State, call: nat, result: KeyringResult, prompts: set<string>)
    requires Good(s) && Enabled(s, Reports(call, result)) && PromptsAsked(s, prompts)
    ensures var s' := AfterReport(s, call, result);
            PromptsAsked(s', Heard(prompts, NewSignals(s, s')))
  {
    hide AnsweredOnce, Heard, NewSignals, Found, Dict, NeedsUser;
    var r, s' := s.requests[call], AfterReport(s, call, result);
    assert RequestOk(s, call);
    if !r.cancelled && result.Items? && NeedsUser(r, Found(result.items)) {
      HeardOne(prompts, Requested(r.id), s, s');
    } else {
      HeardNothing(prompts, s, s');
    }
  }

  lemma EnteringIsUnheard(s: State, id: string, key: string, secret: string, prompts: set<string>)
    requires PromptsAsked(s, prompts)
    ensures PromptsAsked(WithPassword(s, id, key, secret), prompts)
    ensures PromptsAsked(WithVpnSecret(s, id, key, secret), prompts)
    ensures WithPassword(s, id, key, secret).signals == s.signals
    ensures WithVpnSecret(s, id, key, secret).signals == s.signals
  {
  }

  lemma RemovedIsNotAsked(s: State, id: string)
    requires TableOk(s)
    ensures var s' := Removed(s, id);
            && TableOk(s') && s'.signals == s.signals
            && forall x :: Asked(s', x) <==> x != id && Asked(s, x)
  {
  }

  lemma RespondedIsUnheard(s: State, id: string, response: Response, prompts: set<string>)
    requires PromptsAsked(s, prompts)
    ensures PromptsAsked(Responded(s, id, response), prompts - {id})
    ensures Responded(s, id, response).signals == s.signals
  {
    hide Entered, Removed, PromptsAsked;
    TableIsOk(s, prompts);
    if id in s.table {
      var call := s.table[id];
      var r := s.requests[call];
      match response {
        case UserCanceled => RemovedUnheard(s, Answered(s, call, CanceledByUser), id, prompts);
        case InternalError => RemovedUnheard(s, Answered(s, call, FailedInternally), id, prompts);
        case Confirmed =>
          if r.entries.None? {
            NotAsked(s, id, prompts);
          } else {
            var s1 := if r.flags.allowInteraction || r.flags.requestNew then s.(saves := s.saves + [Entered(r)]) else s;
            RemovedUnheard(s, Answered(s1, call, FromUser(Entered(r))), id, prompts);
          }
      }
    } else {
      NotAsked(s, id, prompts);
    }
  }

  lemma TableIsOk(s: State, prompts: set<string>)
    requires PromptsAsked(s, prompts)
    ensures TableOk(s)
  {
  }

  lemma NotAsked(s: State, id: string, prompts: set<string>)
    requires PromptsAsked(s, prompts) && !Asked(s, id)
    ensures prompts - {id} == prompts
    ensures PromptsAsked(s.(aborted := true), prompts)
  {
  }

  lemma RemovedUnheard(s: State, s1: State, id: string, prompts: set<string>)
    requires PromptsAsked(s, prompts) && s1.requests == s.requests && s1.table == s.table && s1.signals == s.signals
    ensures PromptsAsked(Removed(s1, id), prompts - {id}) && Removed(s1, id).signals == s.signals
  {
    hide Removed;
    RemovedIsNotAsked(s1, id);
  }

  /** A user interface that opens and closes its prompts as it hears has them open for what it is asked for. */
  lemma StepIsHeard(s: State, step: Step, prompts: set<string>)
    requires Good(s) && Enabled(s, step) && PromptsAsked(s, prompts)
    ensures var s' := Next(s, step);
            PromptsAsked(s', PromptsAfter(prompts, s, step, s'))
  {
    hide AnsweredOnce, RequestsOk, Canceled, AfterCall, AfterReport, Heard, NewSignals, Finalized, WithPassword,
      WithVpnSecret, Responded;
    match step
    case Call(path, setting, flags, alwaysAsk) => CallIsHeard(s, path, setting, flags, alwaysAsk, prompts);
    case Reports(call, result) => ReportIsHeard(s, call, result, prompts);
    case Password(id, key, secret) =>
      EnteringIsUnheard(s, id, key, secret, prompts);
      HeardNothing(prompts, s, Next(s, step));
    case VpnSecret(id, key, secret) =>
      EnteringIsUnheard(s, id, key, secret, prompts);
      HeardNothing(prompts, s, Next(s, step));
    case Responds(id, response) =>
      RespondedIsUnheard(s, id, response, prompts);
      HeardNothing(prompts, s, Next(s, step));
    case Cancels(path, setting) =>
      var id := RequestId(path, setting);
      CanceledIsHeard(s, id, prompts);
      if id in s.table {
        HeardOne(prompts, Withdrawn(id), s, Next(s, step));
      } else {
        HeardNothing(prompts, s, Next(s, step));
        assert prompts - {id} == prompts;
      }
    case Finalizes(order) => FinalizedKeeps(s, order);
  }

  /** In every run, the prompts that are open are exactly those for which the user is being asked. */
  lemma {:induction false} PromptsAreAsked(steps: seq<Step>)
    requires Run(steps)
    ensures PromptsAsked(After(steps), Prompts(steps))
    decreases |steps|
  {
    hide Good, Enabled, Next, PromptsAsked, Heard, NewSignals;
    if steps == [] {
      NothingAsked();
    } else {
      var n := |steps| - 1;
      PrefixIsRun(steps, n);
      PromptsAreAsked(steps[..n]);
      AllRunsAreGood(steps[..n]);
      StepIsHeard(After(steps[..n]), steps[n], Prompts(steps[..n]));
    }
  }

  lemma NothingAsked()
    ensures PromptsAsked(INITIAL, {})
  {
  }

  /** A confirmation under an id for which a call waits, but no prompt is open. */
  predicate Unprompted(steps: seq<Step>, step: Step) {
    match step
    case Responds(id, Confirmed) => id in After(steps).table && id !in Prompts(steps)
    case _ => false
  }

  /** A step after a run aborts the program if and only if it is such a confirmation. */
  lemma AbortsIff(steps: seq<Step>, step: Step)
    requires Run(steps) && Enabled(After(steps), step)
    ensures Next(After(steps), step).aborted <==> Unprompted(steps, step)
  {
    hide After, Prompts, Finalized, Entered, Found, Dict;
    PromptsAreAsked(steps);
    if step.Finalizes? {
      FinalizedDoesNotAbort(After(steps), step.order);
    }
  }

  lemma {:induction false} FinalizedDoesNotAbort(s: State, order: seq<string>)
    requires TableOk(s)
    ensures Finalized(s, order).aborted == s.aborted
  {
    if order != [] {
      FinalizedDoesNotAbort(s, order[..|order| - 1]);
    }
  }

  /** A run ends in an abort if and only if some confirmation in it finds a call waiting without a prompt. */
  lemma RunAbortsIff(steps: seq<Step>)
    requires Run(steps)
    ensures After(steps).aborted <==> exists n | 0 <= n < |steps| :: Unprompted(steps[..n], steps[n])
  {
    hide After, Next, Unprompted, Run, Enabled;
    if steps == [] {
      NothingAborted();
    } else {
      var last := |steps| - 1;
      LastAbortsIff(steps, last);
      assert steps[..last + 1] == steps;
      forall n | 0 <= n < last ensures !Unprompted(steps[..n], steps[n]) {
        LastAbortsIff(steps, n);
        NotAbortedBefore(steps, n + 1);
      }
    }
  }

  lemma LastAbortsIff(steps: seq<Step>, n: nat)
    requires Run(steps) && n < |steps|
    ensures After(steps[..n + 1]).aborted <==> Unprompted(steps[..n], steps[n])
  {
    hide After, Next, Unprompted, Enabled;
    PrefixIsRun(steps, n);
    AfterOneMore(steps, n);
    AbortsIff(steps[..n], steps[n]);
  }

  lemma NotAbortedBefore(steps: seq<Step>, n: nat)
    requires Run(steps) && n < |steps|
    ensures !After(steps[..n]).aborted
  {
    hide After;
    assert Enabled(After(steps[..n]), steps[n]);
  }

  lemma NothingAborted()
    ensures !After([]).aborted
  {
  }

  /** A password counts if and only if its prompt is open; otherwise it changes nothing. */
  lemma PasswordCountsIff(steps: seq<Step>, id: string, key: string, secret: string)
    requires Run(steps) && Enabled(After(steps), Password(id, key, secret))
    ensures var s, s' := After(steps), Next(After(steps), Password(id, key, secret));
            if id in Prompts(steps) then
              && id in s.table && s'.table == s.table && s'.requests[s.table[id]].entries.Some?
              && s'.requests[s.table[id]].entries.value
                 == s.requests[s.table[id]].entries.value[key := Text(secret)]
            else s' == s
  {
    hide After, Prompts;
    PromptsAreAsked(steps);
  }

  lemma TwoCalls(path: string, setting: string)
    ensures var id := RequestId(path, setting);
            var s1 := AfterCall(INITIAL, path, setting, Flags(true, true), false);
            && TableOk(s1) && !s1.aborted && (forall x :: x in s1.table <==> x == id) && Asked(s1, id)
            && var s2 := AfterCall(s1, path, setting, Flags(false, true), false);
            && TableOk(s2) && !s2.aborted && (forall x :: x in s2.table <==> x == id) && !Asked(s2, id)
            && Pending(s2, 1) && s2.replies == [Reply(0, AgentCanceled)]
  {
  }

  /**
   It does happen: a call that had the user asked is superseded by one that searches the keyring, and the user
   confirms what the former was about.
  */
  lemma ConfirmedTooLate(path: string, setting: string)
    ensures var id := RequestId(path, setting);
            var steps := [Call(path, setting, Flags(true, true), false), Call(path, setting, Flags(false, true), false),
                          Responds(id, Confirmed)];
            && Run(steps) && After(steps).aborted
            && Prompts(steps[..1]) == {id} && Prompts(steps[..2]) == {}
            && Pending(After(steps), 1) && After(steps).replies == [Reply(0, AgentCanceled)]
  {
    hide Prompts, AfterCall;
    var id := RequestId(path, setting);
    var asking, quiet := Flags(true, true), Flags(false, true);
    var steps := [Call(path, setting, asking, false), Call(path, setting, quiet, false), Responds(id, Confirmed)];
    TwoCalls(path, setting);
    var s1 := AfterCall(INITIAL, path, setting, asking, false);
    var s2 := AfterCall(s1, path, setting, quiet, false);
    assert steps[..0] == [] && steps[..1][..0] == [] && steps[..2][..1] == steps[..1] && steps[..3] == steps;
    assert After(steps[..1]) == s1;
    assert After(steps[..2]) == s2;
    assert Run(steps[..1]) && Run(steps[..2]);
    assert After(steps) == s2.(aborted := true);
    PromptsAreAsked(steps[..1]);
    PromptsAreAsked(steps[..2]);
    assert forall x :: x in Prompts(steps[..1]) <==> x == id;
    assert forall x :: x !in Prompts(steps[..2]);
  }

  // ---------------------------------------------------------------- what is answered

  /** How many calls were made. */
  function Calls(steps: seq<Step>): nat {
    if steps == [] then 0 else Calls(steps[..|steps| - 1]) + if steps[|steps| - 1].Call? then 1 else 0
  }

  /** The user is being asked on behalf of the call of step `c`, which is call `n`: at once, or since its search. */
  predicate AskedSince(steps: seq<Step>, c: nat, n: nat)
    requires c < |steps| && steps[c].Call?
  {
    || steps[c].flags.requestNew || (steps[c].flags.allowInteraction && steps[c].alwaysAsk)
    || exists i | c < i < |steps| :: steps[i].Reports? && steps[i].call == n
  }

  /** The secret that the last unlocked item with this name holds. */
  function FoundUnder(items: seq<Item>, key: string): Option<string> {
    if items == [] then None
    else
      var item := items[|items| - 1];
      if item.secret.Some? && item.key == Some(key) then item.secret else FoundUnder(items[..|items| - 1], key)
  }

  /**
   What stands under a key for the call of step `c`, told from the steps alone: the last password entered for it
   since the user was asked, or else what the search found.
  */
  function Standing(steps: seq<Step>, c: nat, n: nat, id: string, key: string): Option<string>
    requires c < |steps| && steps[c].Call?
  {
    if |steps| == c + 1 then None
    else
      var before := steps[..|steps| - 1];
      match steps[|steps| - 1]
      case Password(i, k, secret) =>
        if i == id && k == key && AskedSince(before, c, n) then Some(secret) else Standing(before, c, n, id, key)
      case Reports(call, Items(items)) =>
        if call == n then FoundUnder(items, key) else Standing(before, c, n, id, key)
      case _ => Standing(before, c, n, id, key)
  }

  /** The VPN secrets entered since the call of step `c`, in order. */
  function VpnEntered(steps: seq<Step>, c: nat, id: string): seq<Pair> {
    if |steps| <= c + 1 then []
    else
      var before := VpnEntered(steps[..|steps| - 1], c, id);
      match steps[|steps| - 1]
      case VpnSecret(i, key, secret) => if i == id then before + [Pair(key, secret)] else before
      case _ => before
  }

  /** The entry that an answer has under a key; the VPN secrets, if there are any, are one entry. */
  function Expected(steps: seq<Step>, c: nat, n: nat, id: string, key: string): Option<Value>
    requires c < |steps| && steps[c].Call?
  {
    var vpn, standing := VpnEntered(steps, c, id), Standing(steps, c, n, id, key);
    if key == "secrets" && vpn != [] then Some(Hash(vpn))
    else if standing.Some? then Some(Text(standing.value))
    else None
  }

  /** Step `c` is call `n`, under `id`, and it still waits after `steps`. */
  predicate Waits(steps: seq<Step>, c: nat, n: nat, id: string) {
    && c < |steps| && steps[c].Call? && n == Calls(steps[..c]) && id == RequestId(steps[c].path, steps[c].setting)
    && Pending(After(steps), n)
  }

  /** The request of a call that waits is as the steps tell. */
  ghost predicate AsTold(steps: seq<Step>, c: nat, n: nat, id: string)
    requires c < |steps| && steps[c].Call?
  {
    && n < |After(steps).requests|
    && var r := After(steps).requests[n];
    && r.id == id && r.setting == steps[c].setting && r.flags == steps[c].flags
    && r.vpn == VpnEntered(steps, c, id)
    && (r.entries.Some? <==> AskedSince(steps, c, n))
    && (r.entries.Some? ==> EntriesAsTold(steps, c, n, id, r.entries.value))
  }

  ghost predicate EntriesAsTold(steps: seq<Step>, c: nat, n: nat, id: string, entries: Entries)
    requires c < |steps| && steps[c].Call?
  {
    forall key ::
      && (key in entries <==> Standing(steps, c, n, id, key).Some?)
      && (key in entries ==> entries[key] == Text(Standing(steps, c, n, id, key).value))
  }

  lemma {:induction false} DictHasFound(items: seq<Item>, key: string)
    ensures var d, found := Dict(Found(items)), FoundUnder(items, key);
            (key in d <==> found.Some?) && (key in d ==> d[key] == Text(found.value))
  {
    if items != [] {
      var before, item := items[..|items| - 1], items[|items| - 1];
      DictHasFound(before, key);
      if item.secret.Some? && item.key.Some? {
        var pair := Pair(item.key.value, item.secret.value);
        assert (Found(before) + [pair])[..|Found(before)|] == Found(before);
      } else {
        assert Found(before) + [] == Found(before);
      }
    }
  }

  /** Where the unlocked items are that name the secret they hold. */
  function NamedItems(items: seq<Item>): (at: seq<nat>)
    ensures Increasing(at)
    ensures forall k: nat :: k in at <==> k < |items| && items[k].key.Some? && items[k].secret.Some?
  {
    if items == [] then []
    else
      var n := |items| - 1;
      var before := NamedItems(items[..n]);
      assert forall i | 0 <= i < |before| :: before[i] in before;
      before + if items[n].key.Some? && items[n].secret.Some? then [n] else []
  }

  /** What is found are the secrets of those items under their names, in the order of the items, and all of them. */
  lemma {:induction false} FoundPicks(items: seq<Item>)
    ensures var at, found := NamedItems(items), Found(items);
            && |at| == |found|
            && forall i | 0 <= i < |at| ::
                 at[i] in at && found[i] == Pair(items[at[i]].key.value, items[at[i]].secret.value)
  {
    if items != [] {
      FoundPicks(items[..|items| - 1]);
    }
  }

  /** What the report of a search answers, and whether it has the user asked instead. */
  lemma SearchAnswers(s: State, call: nat, result: KeyringResult)
    requires Good(s) && Enabled(s, Reports(call, result))
    ensures var r, s' := s.requests[call], Next(s, Reports(call, result));
            && s'.saves == s.saves && !s'.aborted
            && if !Pending(s, call) then s'.replies == s.replies && s'.signals == s.signals
               else if result.Failure? then s'.replies == s.replies + [Reply(call, SearchFailed)] && !Pending(s', call)
               else if r.setting == "vpn" || (r.flags.allowInteraction && Found(result.items) == []) then
                 s'.replies == s.replies && s'.signals == s.signals + [Requested(r.id)] && Pending(s', call)
               else
                 s'.replies == s.replies + [Reply(call, FromKeyring(Found(result.items)))] && !Pending(s', call)
  {
    hide AnsweredOnce, Found, Dict;
    assert RequestOk(s, call);
    AfterReportKeeps(s, call, result);
  }

  /** Who is superseded, cancelled or left behind is told so. */
  lemma OthersAreTold(s: State, step: Step)
    requires Good(s) && Enabled(s, step)
    ensures var s' := Next(s, step);
            && (step.Call? || step.Cancels? ==>
                  var id := RequestId(step.path, step.setting);
                  s'.replies == s.replies + if id in s.table then [Reply(s.table[id], AgentCanceled)] else [])
            && (step.Password? || step.VpnSecret? ==> s'.replies == s.replies && s'.saves == s.saves)
            && (step.Finalizes? ==> s'.saves == s.saves && OnlyGoingAway(s.replies, s'.replies))
  {
    if step.Finalizes? {
      GoingAwayOnly(s, step.order);
    }
  }

  /** All that was answered since is that the agent goes away. */
  predicate OnlyGoingAway(before: seq<Reply>, after: seq<Reply>) {
    |before| <= |after| && after[..|before|] == before
    && forall i | |before| <= i < |after| :: after[i].answer == GoingAway
  }

  lemma {:induction false} GoingAwayOnly(s: State, order: seq<string>)
    requires TableOk(s)
    ensures Finalized(s, order).saves == s.saves && OnlyGoingAway(s.replies, Finalized(s, order).replies)
  {
    if order != [] {
      GoingAwayOnly(s, order[..|order| - 1]);
    }
  }

  /** What a step makes of a request that goes on waiting. */
  lemma StepOnRequest(s: State, step: Step, n: nat)
    requires Good(s) && Enabled(s, step) && Pending(s, n) && TableOk(Next(s, step)) && Pending(Next(s, step), n)
    ensures var r, s' := s.requests[n], Next(s, step);
            s'.requests[n] == match step
                              case Reports(call, Items(items)) =>
                                if call == n then r.(searching := false, entries := Some(Dict(Found(items)))) else r
                              case Password(i, key, secret) =>
                                if i == r.id && r.entries.Some?
                                then r.(entries := Some(r.entries.value[key := Text(secret)])) else r
                              case VpnSecret(i, key, secret) =>
                                if i == r.id then r.(vpn := r.vpn + [Pair(key, secret)]) else r
                              case _ => r
    ensures step.Reports? && step.call == n ==> step.result.Items?
  {
    hide AnsweredOnce, Found, Dict, Entered, NeedsUser;
    assert RequestOk(s, n);
    match step
    case Call(path, setting, flags, alwaysAsk) => AfterCallKeeps(s, path, setting, flags, alwaysAsk);
    case Reports(call, result) => AfterReportKeeps(s, call, result);
    case Password(_, _, _) =>
    case VpnSecret(_, _, _) =>
    case Responds(id, response) => RespondedKeeps(s, id, response);
    case Cancels(path, setting) => CanceledKeeps(s, RequestId(path, setting));
    case Finalizes(order) => FinalizedKeeps(s, order);
  }

  /** A call that does not wait any more never waits again. */
  lemma NeverAgain(s: State, step: Step, n: nat)
    requires Good(s) && Enabled(s, step) && n < |s.requests| && Pending(Next(s, step), n)
    ensures Pending(s, n)
  {
    hide AnsweredOnce, Found, Dict, Entered, NeedsUser;
    assert RequestOk(s, n);
    match step
    case Call(path, setting, flags, alwaysAsk) => AfterCallKeeps(s, path, setting, flags, alwaysAsk);
    case Reports(call, result) => AfterReportKeeps(s, call, result);
    case Password(_, _, _) =>
    case VpnSecret(_, _, _) =>
    case Responds(id, response) => RespondedKeeps(s, id, response);
    case Cancels(path, setting) => CanceledKeeps(s, RequestId(path, setting));
    case Finalizes(order) => FinalizedKeeps(s, order);
  }

  /** Every call has its request, in order. */
  lemma {:induction false} CallsAreRequests(steps: seq<Step>)
    requires Run(steps)
    ensures |After(steps).requests| == Calls(steps)
    decreases |steps|
  {
    hide Good, Next, Enabled;
    if steps != [] {
      var n := |steps| - 1;
      PrefixIsRun(steps, n);
      CallsAreRequests(steps[..n]);
      AllRunsAreGood(steps[..n]);
      RequestsGrow(After(steps[..n]), steps[n]);
    }
  }

  lemma RequestsGrow(s: State, step: Step)
    requires Good(s) && Enabled(s, step)
    ensures |Next(s, step).requests| == |s.requests| + if step.Call? then 1 else 0
  {
    hide AnsweredOnce, Found, Dict, Entered, NeedsUser, Finalized;
    match step
    case Call(path, setting, _, _) => CanceledKeeps(s, RequestId(path, setting));
    case Reports(call, result) => AfterReportKeeps(s, call, result);
    case Password(_, _, _) =>
    case VpnSecret(_, _, _) =>
    case Responds(id, response) => RespondedKeeps(s, id, response);
    case Cancels(path, setting) => CanceledKeeps(s, RequestId(path, setting));
    case Finalizes(order) => FinalizedKeeps(s, order);
  }

  lemma JustCalled(steps: seq<Step>, c: nat, n: nat, id: string)
    requires Run(steps) && Waits(steps, c, n, id) && |steps| == c + 1
    ensures AsTold(steps, c, n, id)
  {
    hide Good, Canceled, AnsweredOnce, Calls;
    PrefixIsRun(steps, c);
    AllRunsAreGood(steps[..c]);
    CallsAreRequests(steps[..c]);
    CanceledSizes(After(steps[..c]), id);
  }

  lemma CanceledSizes(s: State, id: string)
    requires Good(s)
    ensures TableOk(s) && |Canceled(s, id).requests| == |s.requests|
  {
    CanceledKeeps(s, id);
  }

  /** A call that waits after one more step waited before it. */
  lemma WaitedBefore(steps: seq<Step>, c: nat, n: nat, id: string)
    requires Run(steps) && Waits(steps, c, n, id) && c + 1 < |steps|
    ensures Run(steps[..|steps| - 1]) && Waits(steps[..|steps| - 1], c, n, id)
  {
    hide Good, Next, Enabled, Pending;
    var before := steps[..|steps| - 1];
    PrefixIsRun(steps, |steps| - 1);
    AllRunsAreGood(before);
    CallsAreRequests(before);
    assert before[..c] == steps[..c];
    CallsGrow(before, c);
    NeverAgain(After(before), steps[|steps| - 1], n);
  }

  lemma {:induction false} CallsGrow(steps: seq<Step>, c: nat)
    requires c < |steps| && steps[c].Call?
    ensures Calls(steps[..c]) < Calls(steps)
  {
    var before := steps[..|steps| - 1];
    if c < |before| {
      assert before[..c] == steps[..c];
      CallsGrow(before, c);
    }
  }

  /** As long as a call waits, its request is as the steps tell. */
  lemma {:induction false} RequestIsAsTold(steps: seq<Step>, c: nat, n: nat, id: string)
    requires Run(steps) && Waits(steps, c, n, id)
    ensures AsTold(steps, c, n, id)
    decreases |steps|
  {
    hide AsTold, After, Run, Pending;
    if |steps| == c + 1 {
      JustCalled(steps, c, n, id);
    } else {
      WaitedBefore(steps, c, n, id);
      RequestIsAsTold(steps[..|steps| - 1], c, n, id);
      StillAsTold(steps, c, n, id);
    }
  }

  lemma StepWasEnabled(steps: seq<Step>, n: nat)
    requires Run(steps) && n < |steps|
    ensures Enabled(After(steps[..n]), steps[n])
  {
  }

  lemma StillAsTold(steps: seq<Step>, c: nat, n: nat, id: string)
    requires Run(steps) && Waits(steps, c, n, id) && c + 1 < |steps|
    requires Waits(steps[..|steps| - 1], c, n, id) && AsTold(steps[..|steps| - 1], c, n, id)
    ensures AsTold(steps, c, n, id)
  {
    hide Good, Next, Enabled, Found, Dict, FoundUnder, Calls, AsksAtOnce, After, Run;
    var before, step := steps[..|steps| - 1], steps[|steps| - 1];
    PrefixIsRun(steps, |steps| - 1);
    AllRunsAreGood(before);
    AllRunsAreGood(steps);
    GoodTable(After(before));
    GoodTable(After(steps));
    StepWasEnabled(steps, |steps| - 1);
    assert steps[..|steps|] == steps;
    AfterOneMore(steps, |steps| - 1);
    StepOnRequest(After(before), step, n);
    assert AskedSince(steps, c, n) <==> AskedSince(before, c, n) || (step.Reports? && step.call == n);
    if step.Reports? && step.call == n {
      forall key ensures var d, found := Dict(Found(step.result.items)), FoundUnder(step.result.items, key);
        (key in d <==> found.Some?) && (key in d ==> d[key] == Text(found.value))
      {
        DictHasFound(step.result.items, key);
      }
    }
  }

  /** These entries, and no others, are those that the steps tell. */
  ghost predicate AsEntered(steps: seq<Step>, c: nat, n: nat, id: string, entries: Entries)
    requires c < |steps| && steps[c].Call?
  {
    forall key ::
      && (key in entries <==> Expected(steps, c, n, id, key).Some?)
      && (key in entries ==> entries[key] == Expected(steps, c, n, id, key).value)
  }

  /**
   What a call is answered with, and what is saved: after a confirmation, under each key the last password that was
   entered for it since the user was asked, or else what the search found, and the VPN secrets in order. Otherwise the
   answer says which response it was. Nothing else changes but that the call does not wait any more.
  */
  lemma AnsweredAsEntered(steps: seq<Step>, c: nat, n: nat, id: string, response: Response)
    requires Run(steps) && Waits(steps, c, n, id) && !After(steps).aborted
    requires response == Confirmed ==> id in Prompts(steps)
    ensures Enabled(After(steps), Responds(id, response))
    ensures var s, s' := After(steps), Next(After(steps), Responds(id, response));
            && s'.table == s.table - {id} && s'.signals == s.signals && !s'.aborted
            && match response
               case UserCanceled => s'.replies == s.replies + [Reply(n, CanceledByUser)] && s'.saves == s.saves
               case InternalError => s'.replies == s.replies + [Reply(n, FailedInternally)] && s'.saves == s.saves
               case Confirmed =>
                 exists entries | AsEntered(steps, c, n, id, entries) ::
                   && s'.replies == s.replies + [Reply(n, FromUser(entries))]
                   && s'.saves == s.saves + if steps[c].flags.allowInteraction || steps[c].flags.requestNew
                                            then [entries] else []
  {
    hide Good, After, Run, Prompts, Standing, VpnEntered, AskedSince, Calls;
    AllRunsAreGood(steps);
    GoodTable(After(steps));
    PromptsAreAsked(steps);
    RequestIsAsTold(steps, c, n, id);
    var r := After(steps).requests[n];
    if response == Confirmed {
      assert AsEntered(steps, c, n, id, Entered(r));
    }
  }

  // ---------------------------------------------------------------- the agent

  class Agent {
    var requests: seq<Request>
    var table: map<string, nat>
    ghost var replies: seq<Reply>
    ghost var saves: seq<Entries>
    ghost var signals: seq<Signal>
    ghost var aborted: bool

    ghost function View(): State
      reads this
    {
      State(requests, table, replies, saves, signals, aborted)
    }

    constructor ()
      ensures View() == INITIAL && Good(View())
    {
      requests, table, replies, saves, signals, aborted := [], map[], [], [], [], false;
      new;
      InitialIsGood();
    }

    /** Runs the callback of a call. */
    method RunCallback(call: nat, answer: Answer)
      modifies this`replies
      ensures View() == Answered(old(View()), call, answer)
    {
      replies := replies + [Reply(call, answer)];
    }

    method Emit(signal: Signal)
      modifies this`signals
      ensures View() == Emitted(old(View()), signal)
    {
      signals := signals + [signal];
    }

    /** Takes a request out of the table, which frees it. */
    method Remove(id: string)
      requires TableOk(View())
      modifies this`requests, this`table
      ensures View() == Removed(old(View()), id)
    {
      if id in table {
        var call := table[id];
        requests := requests[call := requests[call].(cancelled := true)];
        table := table - {id};
      }
    }

    method CancelRequest(id: string)
      requires TableOk(View()) && id in table
      modifies this
      ensures View() == Canceled(old(View()), id)
    {
      RunCallback(table[id], AgentCanceled);
      Emit(Withdrawn(id));
      Remove(id);
    }

    method GetSecrets(path: string, setting: string, flags: Flags, alwaysAsk: bool)
      requires Good(View())
      modifies this
      ensures View() == AfterCall(old(View()), path, setting, flags, alwaysAsk) && Good(View())
    {
      hide Good, Canceled;
      AfterCallKeeps(View(), path, setting, flags, alwaysAsk);
      GoodTable(View());
      var id := RequestId(path, setting);
      NothingToCancel(View(), id);
      if id in table {
        CancelRequest(id);
      }
      var asks := flags.requestNew || (flags.allowInteraction && alwaysAsk);
      table := table[id := |requests|];
      requests := requests + [NewRequest(id, setting, flags, asks)];
      if asks {
        Emit(Requested(id));
      }
    }

    /** The pairs of all unlocked items that name the secret they hold. */
    static method Collect(items: seq<Item>) returns (pairs: seq<Pair>)
      ensures pairs == Found(items)
    {
      pairs := [];
      var i := 0;
      while i < |items|
        invariant 0 <= i <= |items| && pairs == Found(items[..i])
      {
        assert items[..i + 1][..i] == items[..i];
        var item := items[i];
        if item.secret.Some? {
          if item.key.Some? {
            pairs := pairs + [Pair(item.key.value, item.secret.value)];
          }
        }
        i := i + 1;
      }
      assert items[..i] == items;
    }

    method GetSecretsKeyringCallback(call: nat, result: KeyringResult)
      requires Good(View()) && Enabled(View(), Reports(call, result))
      modifies this
      ensures View() == AfterReport(old(View()), call, result) && Good(View())
    {
      hide Good, Found, Dict;
      AfterReportKeeps(View(), call, result);
      var r := requests[call];
      requests := requests[call := r.(searching := false)];
      if !r.cancelled {
        match result {
          case Failure =>
            RunCallback(call, SearchFailed);
            Remove(r.id);
          case Items(items) =>
            var found := Collect(items);
            if r.setting == VPN_SETTING_NAME || (found == [] && r.flags.allowInteraction) {
              requests := requests[call := r.(searching := false, entries := Some(Dict(found)))];
              Emit(Requested(r.id));
            } else {
              RunCallback(call, FromKeyring(found));
              Remove(r.id);
            }
        }
      }
    }

    method SetPassword(id: string, key: string, secret: string)
      requires Good(View()) && !aborted
      modifies this
      ensures View() == WithPassword(old(View()), id, key, secret) && Good(View())
    {
      hide Good;
      GoodTable(View());
      EnteringKeeps(View(), id, key, secret);
      if id in table {
        var call := table[id];
        var r := requests[call];
        if r.entries.Some? {
          requests := requests[call := r.(entries := Some(r.entries.value[key := Text(secret)]))];
        }
      }
    }

    method AddVpnSecret(id: string, key: string, secret: string)
      requires Good(View()) && !aborted
      modifies this
      ensures View() == WithVpnSecret(old(View()), id, key, secret) && Good(View())
    {
      hide Good;
      GoodTable(View());
      EnteringKeeps(View(), id, key, secret);
      if id in table {
        var call := table[id];
        var r := requests[call];
        requests := requests[call := r.(vpn := r.vpn + [Pair(key, secret)])];
      }
    }

    method Respond(id: string, response: Response)
      requires Good(View()) && !aborted
      modifies this
      ensures View() == Responded(old(View()), id, response) && Good(View())
    {
      hide Good;
      GoodTable(View());
      RespondedKeeps(View(), id, response);
      if id in table {
        var call := table[id];
        var r := requests[call];
        match response {
          case UserCanceled => RunCallback(call, CanceledByUser);
          case InternalError => RunCallback(call, FailedInternally);
          case Confirmed =>
            if r.entries.None? {
              aborted := true;
              return;
            }
            var entries := r.entries.value;
            if r.vpn != [] {
              entries := entries[VPN_SECRETS := Hash(r.vpn)];
            }
            if r.flags.allowInteraction || r.flags.requestNew {
              saves := saves + [entries];
            }
            RunCallback(call, FromUser(entries));
        }
        Remove(id);
      }
    }

    method CancelGetSecrets(path: string, setting: string)
      requires Good(View())
      modifies this
      ensures View() == Canceled(old(View()), RequestId(path, setting)) && Good(View())
    {
      hide Good;
      var id := RequestId(path, setting);
      CanceledKeeps(View(), id);
      GoodTable(View());
      if id in table {
        CancelRequest(id);
      }
    }

    method GoAway(id: string)
      requires TableOk(View()) && id in table
      modifies this
      ensures View() == GoneAway(old(View()), id) && TableOk(View())
      ensures table == old(table) - {id}
    {
      RunCallback(table[id], GoingAway);
      Remove(id);
    }

    /** The table is walked in an order of its own; each pending call gets its answer. */
    method Finalize() returns (order: seq<string>)
      requires Good(View())
      modifies this
      ensures View() == Finalized(old(View()), order) && Good(View()) && table == map[]
      ensures forall id :: id in order <==> id in old(table)
    {
      hide Good, GoneAway, TableOk;
      ghost var was := View();
      order := [];
      GoodTable(was);
      while table.Keys != {}
        invariant View() == Finalized(was, order) && TableOk(View())
        invariant forall id :: id in was.table <==> id in order || id in table
        invariant forall id | id in order :: id in was.table
        decreases |table.Keys|
      {
        ghost var keys := table.Keys;
        var id :| id in table.Keys;
        GoAway(id);
        assert table.Keys == keys - {id};
        FinalizedOneMore(was, order, id);
        order := order + [id];
      }
      FinalizedKeeps(was, order);
    }
  }

  lemma FinalizedOneMore(s: State, order: seq<string>, id: string)
    requires TableOk(s)
    ensures Finalized(s, order + [id]) == GoneAway(Finalized(s, order), id)
  {
    assert (order + [id])[..|order|] == order;
  }

  lemma GoodTable(s: State)
    requires Good(s)
    ensures TableOk(s)
  {
  }

  lemma NothingToCancel(s: State, id: string)
    requires TableOk(s)
    ensures id !in s.table ==> Canceled(s, id) == s
  {
  }

  // ---------------------------------------------------------------- saving secrets

  datatype VpnSecretValue = VpnSecretValue(key: string, secret: Option<string>, owned: bool)

  /** A property of a connection; only strings that agents own are saved, from the hash of a VPN one by one. */
  datatype Property =
    | Plain(isSecret: bool, key: string, text: Option<string>, agentOwned: bool)
    | VpnHash(isSecretHash: bool, secrets: seq<VpnSecretValue>)

  predicate Saves(secret: Option<string>, owned: bool) {
    secret.Some? && secret.value != "" && owned
  }

  function SavedFromHash(secrets: seq<VpnSecretValue>): seq<Pair> {
    if secrets == [] then []
    else
      var last := secrets[|secrets| - 1];
      SavedFromHash(secrets[..|secrets| - 1])
      + if Saves(last.secret, last.owned) then [Pair(last.key, last.secret.value)] else []
  }

  function SavedFrom(property: Property): seq<Pair> {
    match property
    case Plain(isSecret, key, text, owned) => if isSecret && Saves(text, owned) then [Pair(key, text.value)] else []
    case VpnHash(isSecret, secrets) => if isSecret then SavedFromHash(secrets) else []
  }

  function Saved(properties: seq<Property>): seq<Pair> {
    if properties == [] then []
    else Saved(properties[..|properties| - 1]) + SavedFrom(properties[|properties| - 1])
  }

  /** The secrets among the properties, in order. */
  function Offered(properties: seq<Property>): seq<VpnSecretValue> {
    if properties == [] then []
    else
      Offered(properties[..|properties| - 1])
      + match properties[|properties| - 1]
        case Plain(isSecret, key, text, owned) => if isSecret then [VpnSecretValue(key, text, owned)] else []
        case VpnHash(isSecret, secrets) => if isSecret then secrets else []
  }

  /** `pairs` are those of the offered secrets that agents own and that are not empty: all of them, in order. */
  ghost predicate IsPick(offered: seq<VpnSecretValue>, pairs: seq<Pair>, at: seq<nat>) {
    PickedInOrder(offered, pairs, at) && PickedAll(offered, at)
  }

  ghost predicate PickedInOrder(offered: seq<VpnSecretValue>, pairs: seq<Pair>, at: seq<nat>) {
    && Increasing(at) && |at| == |pairs|
    && forall i | 0 <= i < |at| ::
         && at[i] < |offered| && offered[at[i]].owned
         && offered[at[i]].secret == Some(pairs[i].secret) && pairs[i].secret != ""
         && offered[at[i]].key == pairs[i].key
  }

  ghost predicate PickedAll(offered: seq<VpnSecretValue>, at: seq<nat>) {
    forall k | 0 <= k < |offered| && offered[k].owned && offered[k].secret.Some? && offered[k].secret.value != "" ::
      k in at
  }

  /** The places of two picks, the second behind the first. */
  function Behind(n: nat, at: seq<nat>, at': seq<nat>): seq<nat> {
    seq(|at| + |at'|, i requires 0 <= i < |at| + |at'| => if i < |at| then at[i] else n + at'[i - |at|])
  }

  lemma PickMore(
    offered: seq<VpnSecretValue>, pairs: seq<Pair>, at: seq<nat>, offered': seq<VpnSecretValue>, pairs': seq<Pair>,
    at': seq<nat>) returns (all: seq<nat>)
    requires IsPick(offered, pairs, at) && IsPick(offered', pairs', at')
    ensures IsPick(offered + offered', pairs + pairs', all)
  {
    hide PickedInOrder, PickedAll, Behind;
    all := Behind(|offered|, at, at');
    PickMoreInOrder(offered, pairs, at, offered', pairs', at');
    PickMoreAll(offered, at, offered', at');
  }

  lemma PickMoreInOrder(
    offered: seq<VpnSecretValue>, pairs: seq<Pair>, at: seq<nat>, offered': seq<VpnSecretValue>, pairs': seq<Pair>,
    at': seq<nat>)
    requires PickedInOrder(offered, pairs, at) && PickedInOrder(offered', pairs', at')
    ensures PickedInOrder(offered + offered', pairs + pairs', Behind(|offered|, at, at'))
  {
  }

  lemma PickMoreAll(offered: seq<VpnSecretValue>, at: seq<nat>, offered': seq<VpnSecretValue>, at': seq<nat>)
    requires PickedAll(offered, at) && PickedAll(offered', at')
    ensures PickedAll(offered + offered', Behind(|offered|, at, at'))
  {
    var n, m, more, all := |offered|, |at|, offered + offered', Behind(|offered|, at, at');
    forall k | 0 <= k < |more| && more[k].owned && more[k].secret.Some? && more[k].secret.value != "" ensures k in all {
      if k < n {
        var i :| 0 <= i < m && at[i] == k;
        assert all[i] == k;
      } else {
        var i :| 0 <= i < |at'| && at'[i] == k - n;
        assert all[m + i] == k;
      }
    }
  }

  lemma {:induction false} HashPicks(secrets: seq<VpnSecretValue>) returns (at: seq<nat>)
    ensures IsPick(secrets, SavedFromHash(secrets), at)
  {
    at := [];
    if secrets != [] {
      var n := |secrets| - 1;
      at := HashPicks(secrets[..n]);
      var one := if Saves(secrets[n].secret, secrets[n].owned) then [0] else [];
      var last := if one == [] then [] else [Pair(secrets[n].key, secrets[n].secret.value)];
      assert one != [] ==> one[0] == 0;
      at := PickMore(secrets[..n], SavedFromHash(secrets[..n]), at, [secrets[n]], last, one);
      assert secrets[..n] + [secrets[n]] == secrets;
    }
  }

  /** What is saved of the properties of a connection. */
  lemma {:induction false} SavedPicks(properties: seq<Property>) returns (at: seq<nat>)
    ensures IsPick(Offered(properties), Saved(properties), at)
  {
    hide SavedFromHash;
    at := [];
    if properties != [] {
      var n := |properties| - 1;
      at := SavedPicks(properties[..n]);
      match properties[n] {
        case Plain(isSecret, key, text, owned) =>
          if isSecret {
            var one := if Saves(text, owned) then [0] else [];
            assert one != [] ==> one[0] == 0;
            at := PickMore(Offered(properties[..n]), Saved(properties[..n]), at, [VpnSecretValue(key, text, owned)],
                           SavedFrom(properties[n]), one);
          }
        case VpnHash(isSecret, secrets) =>
          if isSecret {
            var more := HashPicks(secrets);
            at := PickMore(Offered(properties[..n]), Saved(properties[..n]), at, secrets, SavedFromHash(secrets), more);
          }
      }
    }
  }

  /**
   One call for saving secrets. `stored` are the secrets handed to the keyring, of which `reported` have been
   confirmed; `callbacks` counts how often the caller was told.
  */
  class SaveRequest {
    const hasCallback: bool
    var nSecrets: int
    ghost var started: bool
    ghost var freed: bool
    ghost var stored: seq<Pair>
    ghost var reported: nat
    ghost var callbacks: nat

    /** The caller is told, and the request freed, exactly when every store that was begun has been confirmed. */
    ghost predicate Valid()
      reads this
    {
      && nSecrets == |stored| - reported >= 0
      && (freed <==> started && nSecrets == 0)
      && callbacks == (if freed && hasCallback then 1 else 0)
      && (!started ==> stored == [])
    }

    constructor (hasCallback: bool)
      ensures Valid() && !started && this.hasCallback == hasCallback
    {
      this.hasCallback := hasCallback;
      nSecrets, started, freed, stored, reported, callbacks := 0, false, false, [], 0, 0;
    }

    method SaveOneSecret(key: string, secret: string, owned: bool)
      requires secret != ""
      modifies this`nSecrets, this`stored
      ensures stored == old(stored) + (if Saves(Some(secret), owned) then [Pair(key, secret)] else [])
      ensures nSecrets - old(nSecrets) == |stored| - |old(stored)|
    {
      if owned {
        nSecrets := nSecrets + 1;
        stored := stored + [Pair(key, secret)];
      }
    }

    method SaveVpnSecrets(secrets: seq<VpnSecretValue>)
      modifies this`nSecrets, this`stored
      ensures stored == old(stored) + SavedFromHash(secrets)
      ensures nSecrets - old(nSecrets) == |stored| - |old(stored)|
    {
      var i := 0;
      while i < |secrets|
        invariant 0 <= i <= |secrets| && stored == old(stored) + SavedFromHash(secrets[..i])
        invariant nSecrets - old(nSecrets) == |stored| - |old(stored)|
      {
        assert secrets[..i + 1][..i] == secrets[..i];
        if secrets[i].secret.Some? && secrets[i].secret.value != "" {
          SaveOneSecret(secrets[i].key, secrets[i].secret.value, secrets[i].owned);
        }
        i := i + 1;
      }
      assert secrets[..i] == secrets;
    }

    method WriteOneSecret(property: Property)
      modifies this`nSecrets, this`stored
      ensures stored == old(stored) + SavedFrom(property)
      ensures nSecrets - old(nSecrets) == |stored| - |old(stored)|
    {
      hide SavedFromHash;
      match property {
        case Plain(isSecret, key, text, owned) =>
          if isSecret && text.Some? && text.value != "" {
            SaveOneSecret(key, text.value, owned);
          }
        case VpnHash(isSecret, secrets) =>
          if isSecret {
            SaveVpnSecrets(secrets);
          }
      }
    }

    /** The old secrets were deleted; now the new ones are stored. */
    method SaveDeleteCallback(properties: seq<Property>)
      requires Valid() && !started
      modifies this
      ensures Valid() && started && stored == Saved(properties) && reported == 0
    {
      hide SavedFrom;
      started := true;
      var i := 0;
      while i < |properties|
        invariant 0 <= i <= |properties| && stored == Saved(properties[..i]) && nSecrets == |stored|
        invariant started && !freed && callbacks == 0 && reported == 0
      {
        assert properties[..i + 1][..i] == properties[..i];
        WriteOneSecret(properties[i]);
        i := i + 1;
      }
      assert properties[..i] == properties;
      if nSecrets == 0 {
        Finish();
      }
    }

    /** The keyring confirms one store. */
    method SaveSecretCallback()
      requires Valid() && started && reported < |stored|
      modifies this
      ensures Valid() && started && stored == old(stored) && reported == old(reported) + 1
      ensures callbacks == old(callbacks) + if hasCallback && reported == |stored| then 1 else 0
    {
      reported := reported + 1;
      nSecrets := nSecrets - 1;
      if nSecrets == 0 {
        Finish();
      }
    }

    method Finish()
      modifies this`callbacks, this`freed
      ensures freed && callbacks == old(callbacks) + if hasCallback then 1 else 0
    {
      if hasCallback {
        callbacks := callbacks + 1;
      }
      freed := true;
    }
  }
}
