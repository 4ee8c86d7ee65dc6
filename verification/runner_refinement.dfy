/** The broker does what the simulation says, whatever else it holds: other accounts with
    orders of their own, and marks left over from earlier runs. */
module RunnerRefinement {
  import opened BrokerModels
  import opened Positions
  import opened Pricing
  import opened Engine
  import opened EngineLaws
  import opened Ledger
  import opened TradeLedgers
  import opened AccountInvariants
  import opened CoupledRuns
  import opened Reconciliation
  import opened Sizing
  import opened Simulation
  import opened SimulationFills
  import opened SimulationLaws

  // ---- one account -------------------------------------------------------------------

  /** Orders that are not new are passed over. */
  lemma {:induction false} SkipsTo(cfg: Config, a: Account, latest: Prices, bars: Prices, i: nat,
      n: nat, time: int)
    requires i <= n <= |a.orders| && forall k :: i <= k < n ==> a.orders[k].status != New
    ensures StepOrders(cfg, a, latest, bars, i, time) == StepOrders(cfg, a, latest, bars, n, time)
    decreases n - i
  {
    if i < n {
      SkipsTo(cfg, a, latest, bars, i + 1, n, time);
    }
  }

  /** With one ticker only its own mark matters. */
  lemma OnlyOwnMark(book: Book, ticker: Name, latest: Prices, price: real)
    requires Distinct(book) && ticker in latest && latest[ticker].close == price
    requires forall i :: 0 <= i < |book| ==> book[i].ticker == ticker
    ensures MarketValue(book, latest) == MarketValue(book, map[ticker := FlatBar(price)])
  {
    OneTickerValue(book, ticker, latest);
    OneTickerValue(book, ticker, map[ticker := FlatBar(price)]);
  }

  lemma OpenEquity(run: Setup, a: Account, latest: Prices, bars: Prices)
    requires Steady(run, a) && run.ticker in bars
    ensures EquityAtOpen(a, latest, bars) == PrefillEquity(a, run.ticker, bars[run.ticker].open)
  {
    OneTickerValue(a.book, run.ticker, bars);
    if |a.book| == 1 {
      assert a.book[1..] == [];
      assert ValueAtOpen(a.book, latest, bars) == Times(a.book[0].shares, bars[run.ticker].open);
      assert Shares(a.book, run.ticker) == a.book[0].shares;
    } else {
      assert Shares(a.book, run.ticker) == 0.0;
      assert ValueAtOpen(a.book, latest, bars) == 0.0;
      assert Times(0.0, bars[run.ticker].open) == 0.0;
    }
  }

  /** The queued order of a steady account is checked, passes, and fills at the open. */
  lemma QueuedOrderFills(run: Setup, a: Account, o: Order, latest: Prices, bars: Prices, time: int,
      target: real, want: int)
    requires GoodSetup(run) && Steady(run, a) && run.ticker in bars && bars[run.ticker].open > 0.0
    requires TargetAllowed(run, target) && Moves(run, a, o, want) && o.status == New
    requires WithinTarget(Buying(run.cfg, bars[run.ticker].open), Selling(run.cfg, bars[run.ticker].open),
                          bars[run.ticker].open,
                          PrefillEquity(a, run.ticker,
                                        bars[run.ticker].open), target / 100.0, Have(a, run.ticker), want)
    requires run.ticker in latest && latest[run.ticker].close == bars[run.ticker].open
    ensures StepOrders(run.cfg, a.(orders := a.orders + [o]), latest, bars, 0, time)
         == FillAtOpen(run, a, o, bars[run.ticker].open, time)
  {
    var open := bars[run.ticker].open;
    var queued := a.(orders := a.orders + [o]);
    SkipsTo(run.cfg, queued, latest, bars, 0, |a.orders|, time);
    WithinTargetPasses(run, a, o, open, target, want);
    OpenEquity(run, a, latest, bars);
    assert EquityAtOpen(queued, latest, bars) == EquityAtOpen(a, latest, bars);
    SameFill(run, a, o, latest, open, time, want);
    assert StepOrder(run.cfg, queued, latest, bars, |a.orders|, time) == FillAtOpen(run, a, o, open, time);
  }

  lemma SameFill(run: Setup, a: Account, o: Order, latest: Prices, open: real, time: int, want: int)
    requires GoodSetup(run) && Steady(run, a) && open > 0.0 && Moves(run, a, o, want)
    requires run.ticker in latest && latest[run.ticker].close == open
    ensures ExecuteFill(run.cfg, a.(orders := a.orders + [o]), latest, |a.orders|,
                        MarketPrice(o.side, open, run.cfg.slippage), open, time)
         == FillAtOpen(run, a, o, open, time)
  {
    FillBook(run, a, o, open, time, want);
    OnlyOwnMark(FillAtOpen(run, a, o, open, time).book, run.ticker, latest, open);
  }

  /** A fresh order is stored at the end and waits for the open. */
  lemma PlacingQueues(e: EngineState, a: Account, o: Order, now: int)
    requires Consistent(e) && e.cfg.timing == NextOpen && o.account in e.accounts && e.accounts[o.account] == a
    requires o.kind == Market && o.clientOrderId == None && OrderIndex(a.orders, o.id) == |a.orders|
    ensures PlaceOrder(e, o, now) == e.(accounts := e.accounts[o.account := a.(orders := a.orders + [o])])
  {
    assert PutOrder(a.orders, o) == a.orders + [o];
    assert (a.orders + [o])[|a.orders|] == o;
    assert a.reports[|a.reports|..] == [];
    assert e.notified + [] == e.notified;
  }

  lemma FreshOrderId(run: Setup, a: Account, sequence: nat)
    requires GoodSetup(run) && OrdersFilled(run, a, sequence - 1)
    ensures OrderIndex(a.orders, run.orderIds(sequence)) == |a.orders|
  {
    var i := OrderIndex(a.orders, run.orderIds(sequence));
    if i < |a.orders| {
      OtherIds(run, a, i, sequence);
    }
  }

  lemma OtherIds(run: Setup, a: Account, i: nat, sequence: nat)
    requires GoodSetup(run) && OrdersFilled(run, a, sequence - 1) && i < |a.orders|
    ensures a.orders[i].id != run.orderIds(sequence)
  {
    var earlier: nat := a.orders[i].decision;
    assert earlier != sequence;
  }

  // ---- the other accounts ------------------------------------------------------------

  /** The session is new to the orders of all other accounts. */
  ghost predicate Foreign(a: Account, session: Name) {
    forall i :: 0 <= i < |a.orders| ==> a.orders[i].owner.session != session
  }

  ghost predicate OthersForeign(e: EngineState, account: Name, session: Name) {
    forall id :: id in e.accounts && id != account ==> Foreign(e.accounts[id], session)
  }

  ghost predicate ForeignReports(rs: seq<FillReport>, session: Name) {
    forall k :: 0 <= k < |rs| ==> rs[k].fill.owner.session != session
  }

  lemma StepStaysForeign(cfg: Config, a: Account, latest: Prices, bars: Prices, i: nat, time: int,
      session: Name)
    requires Foreign(a, session) && i < |a.orders|
    ensures
      var b := StepOrder(cfg, a, latest, bars, i, time);
      Foreign(b, session) && ForeignReports(b.reports[|a.reports|..], session)
  {
    assert a.orders[i].owner.session != session;
  }

  lemma {:induction false} StepsStayForeign(cfg: Config, a: Account, latest: Prices, bars: Prices,
      i: nat, time: int, session: Name)
    requires Foreign(a, session) && i <= |a.orders|
    ensures
      var b := StepOrders(cfg, a, latest, bars, i, time);
      Foreign(b, session) && ForeignReports(b.reports[|a.reports|..], session)
    decreases |a.orders| - i
  {
    if i < |a.orders| {
      var b := StepOrder(cfg, a, latest, bars, i, time);
      var c := StepOrders(cfg, b, latest, bars, i + 1, time);
      StepStaysForeign(cfg, a, latest, bars, i, time, session);
      StepsStayForeign(cfg, b, latest, bars, i + 1, time, session);
      ForeignSuffix(a.reports, b.reports, c.reports, session);
    }
  }

  lemma ForeignSuffix(first: seq<FillReport>, mid: seq<FillReport>, last: seq<FillReport>, session: Name)
    requires |first| <= |mid| <= |last| && last[..|mid|] == mid
    requires ForeignReports(mid[|first|..], session) && ForeignReports(last[|mid|..], session)
    ensures ForeignReports(last[|first|..], session)
  {
    forall k | 0 <= k < |last[|first|..]| ensures last[|first|..][k].fill.owner.session != session {
      if k + |first| < |mid| {
        assert last[|first|..][k] == mid[|first|..][k];
      } else {
        assert last[|first|..][k] == last[|mid|..][k + |first| - |mid|];
      }
    }
  }

  /** The reports of one session, in order. */
  function OfSession(rs: seq<FillReport>, session: Name): seq<FillReport> {
    if |rs| == 0 then []
    else
      var rest := OfSession(rs[..|rs| - 1], session);
      if rs[|rs| - 1].fill.owner.session == session then rest + [rs[|rs| - 1]] else rest
  }

  lemma {:induction false} OfSessionSplit(rs: seq<FillReport>, more: seq<FillReport>, session: Name)
    ensures OfSession(rs + more, session) == OfSession(rs, session) + OfSession(more, session)
    decreases |more|
  {
    if |more| == 0 {
      assert rs + more == rs;
    } else {
      OfSessionSplit(rs, more[..|more| - 1], session);
      assert (rs + more)[..|rs + more| - 1] == rs + more[..|more| - 1];
    }
  }

  lemma {:induction false} ForeignLeavesNone(rs: seq<FillReport>, session: Name)
    requires ForeignReports(rs, session)
    ensures OfSession(rs, session) == []
    decreases |rs|
  {
    if |rs| > 0 {
      ForeignLeavesNone(rs[..|rs| - 1], session);
    }
  }

  /** What an account and a session's callbacks do not notice. */
  ghost predicate Unnoticed(e: EngineState, r: EngineState, account: Name, session: Name) {
    && r.ids == e.ids && r.latest == e.latest && r.cfg == e.cfg
    && account in e.accounts && account in r.accounts && r.accounts[account] == e.accounts[account]
    && OthersForeign(r, account, session)
    && OfSession(r.notified, session) == OfSession(e.notified, session)
  }

  /** Another account's turn in a bar. */
  lemma OtherTurn(e: EngineState, bars: Prices, k: nat, time: int, account: Name, session: Name)
    requires Consistent(e) && k < |e.ids| && account in e.accounts && OthersForeign(e, account, session)
    requires e.ids[k] != account
    ensures Unnoticed(e, StepAccount(e, bars, k, time), account, session)
  {
    var id := e.ids[k];
    assert id in e.ids;
    var after := StepOrders(e.cfg, e.accounts[id], e.latest, bars, 0, time);
    var added := after.reports[|e.accounts[id].reports|..];
    OfSessionSplit(e.notified, added, session);
    StepsStayForeign(e.cfg, e.accounts[id], e.latest, bars, 0, time, session);
    ForeignLeavesNone(added, session);
  }

  lemma UnnoticedTwice(e: EngineState, f: EngineState, g: EngineState, account: Name, session: Name)
    requires Unnoticed(e, f, account, session) && Unnoticed(f, g, account, session)
    ensures Unnoticed(e, g, account, session)
  {
  }

  /** The turns of the other accounts, up to a position. */
  lemma {:induction false} OtherTurns(e: EngineState, bars: Prices, k: nat, time: int,
      account: Name, session: Name)
    requires Consistent(e) && k <= |e.ids| && account in e.accounts && OthersForeign(e, account, session)
    requires forall j :: k <= j < |e.ids| ==> e.ids[j] != account
    ensures Unnoticed(e, StepAccounts(e, bars, k, time), account, session)
    decreases |e.ids| - k
  {
    if k < |e.ids| {
      var mid := StepAccount(e, bars, k, time);
      OtherTurn(e, bars, k, time, account, session);
      OtherTurns(mid, bars, k + 1, time, account, session);
      UnnoticedTwice(e, mid, StepAccounts(mid, bars, k + 1, time), account, session);
    }
  }

  /** What a bar does to an account and its session's callbacks when its own orders step
      it to `own`. */
  ghost predicate Stepped(e: EngineState, r: EngineState, account: Name, session: Name, own: Account) {
    && r.ids == e.ids && r.latest == e.latest && r.cfg == e.cfg
    && account in e.accounts && account in r.accounts && r.accounts[account] == own
    && OthersForeign(r, account, session)
    && |e.accounts[account].reports| <= |own.reports|
    && OfSession(r.notified, session)
         == OfSession(e.notified, session) + OfSession(own.reports[|e.accounts[account].reports|..], session)
  }

  lemma OwnTurn(e: EngineState, bars: Prices, k: nat, time: int, account: Name, session: Name)
    requires Consistent(e) && k < |e.ids| && account in e.accounts && OthersForeign(e, account, session)
    requires e.ids[k] == account
    ensures Stepped(e, StepAccount(e, bars, k, time), account, session,
                    StepOrders(e.cfg, e.accounts[account], e.latest, bars, 0, time))
  {
    var after := StepOrders(e.cfg, e.accounts[account], e.latest, bars, 0, time);
    OfSessionSplit(e.notified, after.reports[|e.accounts[account].reports|..], session);
  }

  lemma UnnoticedThenStepped(e: EngineState, f: EngineState, g: EngineState, account: Name,
      session: Name, own: Account)
    requires Unnoticed(e, f, account, session) && Stepped(f, g, account, session, own)
    ensures Stepped(e, g, account, session, own)
  {
  }

  lemma SteppedThenUnnoticed(e: EngineState, f: EngineState, g: EngineState, account: Name,
      session: Name, own: Account)
    requires Stepped(e, f, account, session, own) && Unnoticed(f, g, account, session)
    ensures Stepped(e, g, account, session, own)
  {
  }

  lemma OwnTurnAndRest(e: EngineState, bars: Prices, k: nat, time: int, account: Name, session: Name)
    requires Consistent(e) && k < |e.ids| && account in e.accounts && OthersForeign(e, account, session)
    requires e.ids[k] == account
    ensures Stepped(e, StepAccounts(e, bars, k, time), account, session,
                    StepOrders(e.cfg, e.accounts[account], e.latest, bars, 0, time))
  {
    var mid := StepAccount(e, bars, k, time);
    var own := StepOrders(e.cfg, e.accounts[account], e.latest, bars, 0, time);
    OwnTurn(e, bars, k, time, account, session);
    OtherTurns(mid, bars, k + 1, time, account, session);
    SteppedThenUnnoticed(e, mid, StepAccounts(mid, bars, k + 1, time), account, session, own);
  }

  /** All turns from one at or before the account's own. */
  lemma {:induction false} AccountsIsolated(e: EngineState, bars: Prices, k: nat, turn: nat, time: int,
      account: Name, session: Name, own: Account)
    requires Consistent(e) && account in e.accounts && OthersForeign(e, account, session)
    requires k <= turn < |e.ids| && e.ids[turn] == account
    requires own == StepOrders(e.cfg, e.accounts[account], e.latest, bars, 0, time)
    ensures Stepped(e, StepAccounts(e, bars, k, time), account, session, own)
    decreases |e.ids| - k
  {
    if k < turn {
      var mid := StepAccount(e, bars, k, time);
      OtherTurn(e, bars, k, time, account, session);
      AccountsIsolated(mid, bars, k + 1, turn, time, account, session, own);
      UnnoticedThenStepped(e, mid, StepAccounts(mid, bars, k + 1, time), account, session, own);
    } else {
      OwnTurnAndRest(e, bars, k, time, account, session);
    }
  }

  /** A bar, seen from one account of the broker: its own orders are stepped, with the
      opens as marks; nothing else reaches it or its session's callbacks. */
  lemma BarIsolated(e: EngineState, bars: Prices, time: int, account: Name, session: Name)
    requires Consistent(e) && e.cfg.timing == NextOpen && account in e.accounts && OthersForeign(e, account, session)
    ensures
      var r := OnBar(e, bars, time);
      var own := StepOrders(e.cfg, e.accounts[account], e.latest + OpenOnly(bars), bars, 0, time);
      && account in r.accounts && r.cfg == e.cfg && r.latest == e.latest + OpenOnly(bars) + bars
      && OthersForeign(r, account, session)
      && r.accounts[account] == own
      && OfSession(r.notified, session)
           == OfSession(e.notified, session) + OfSession(own.reports[|e.accounts[account].reports|..], session)
  {
    var marked := e.(latest := e.latest + OpenOnly(bars));
    assert account in e.ids;
    var turn :| 0 <= turn < |e.ids| && e.ids[turn] == account;
    AccountsIsolated(marked, bars, 0, turn, time, account, session,
                     StepOrders(e.cfg, e.accounts[account], marked.latest, bars, 0, time));
  }

  // ---- sessions that have not been used --------------------------------------------------

  /** The session shows in no order of the other accounts, and not in the fill log. */
  ghost predicate Spared(e: EngineState, log: seq<Record>, account: Name, session: Name) {
    OthersForeign(e, account, session) && forall k :: 0 <= k < |log| ==> log[k].fill.owner.session != session
  }

  lemma {:induction false} NoneLeftIsForeign(rs: seq<FillReport>, session: Name)
    requires OfSession(rs, session) == []
    ensures ForeignReports(rs, session)
    decreases |rs|
  {
    if |rs| > 0 {
      NoneLeftIsForeign(rs[..|rs| - 1], session);
    }
  }

  lemma {:induction false} RecordsStayForeign(log: seq<Record>, rs: seq<FillReport>, session: Name)
    requires ForeignReports(rs, session) && forall k :: 0 <= k < |log| ==> log[k].fill.owner.session != session
    ensures forall k :: 0 <= k < |RecordFills(log, rs)| ==> RecordFills(log, rs)[k].fill.owner.session != session
    decreases |rs|
  {
    if |rs| > 0 {
      RecordsStayForeign(log, rs[..|rs| - 1], session);
    }
  }

  /** A bar in which the account's own fills are of another session spares the session. */
  lemma BarSpares(e: EngineState, log: seq<Record>, bars: Prices, time: int, account: Name, session: Name)
    requires Consistent(e) && e.cfg.timing == NextOpen && account in e.accounts && Spared(e, log, account, session)
    requires |e.notified| <= |OnBar(e, bars, time).notified|
    requires OnBar(e, bars, time).notified[..|e.notified|] == e.notified
    requires account in OnBar(e, bars, time).accounts
    requires ForeignReports(OnBar(e, bars, time).accounts[account].reports, session)
    ensures Spared(OnBar(e, bars, time), RecordFills(log, OnBar(e, bars, time).notified[|e.notified|..]),
                   account, session)
  {
    BarIsolated(e, bars, time, account, session);
    var r := OnBar(e, bars, time);
    var own := r.accounts[account].reports[|e.accounts[account].reports|..];
    var added := r.notified[|e.notified|..];
    ForeignLeavesNone(own, session);
    assert r.notified == e.notified + added;
    OfSessionSplit(e.notified, added, session);
    assert OfSession(added, session) == [] by {
      NothingAdded(OfSession(e.notified, session), OfSession(added, session));
    }
    NoneLeftIsForeign(added, session);
    RecordsStayForeign(log, added, session);
  }

  lemma NothingAdded<T>(front: seq<T>, more: seq<T>)
    requires front + more == front
    ensures more == []
  {
    assert |front + more| == |front|;
  }

  // ---- the ledger ------------------------------------------------------------------------

  ghost predicate OneOwner(rs: seq<FillReport>, owner: Owner, account: Name) {
    forall k :: 0 <= k < |rs| && rs[k].fill.owner.session == owner.session ==> OwnReport(rs[k], owner, account)
  }

  /** Records of other sessions do not show in the scope of this one. */
  lemma {:induction false} ScopeSkipsOthers(log: seq<Record>, rs: seq<FillReport>, owner: Owner,
      account: Name)
    requires OneOwner(rs, owner, account)
    ensures LoadFills(RecordFills(log, rs), ScopeOf(owner, account))
         == RecordFills(LoadFills(log, ScopeOf(owner, account)), OfSession(rs, owner.session))
    decreases |rs|
  {
    if |rs| > 0 {
      var front, r := rs[..|rs| - 1], rs[|rs| - 1];
      ScopeSkipsOthers(log, front, owner, account);
      var before := RecordFills(log, front);
      assert RecordFills(log, rs)[..|before|] == before;
      if r.fill.owner.session == owner.session {
        assert OwnReport(rs[|rs| - 1], owner, account);
        ScopeKeepsLatest(before, ScopeOf(owner, account), FillKey(r.fill, r.ticker));
        var own := OfSession(front, owner.session);
        assert (own + [r])[..|own|] == own;
      }
    }
  }

  lemma {:induction false} RecordFillsSplit(log: seq<Record>, rs: seq<FillReport>, more: seq<FillReport>)
    ensures RecordFills(log, rs + more) == RecordFills(RecordFills(log, rs), more)
    decreases |more|
  {
    if |more| == 0 {
      assert rs + more == rs;
    } else {
      RecordFillsSplit(log, rs, more[..|more| - 1]);
      assert (rs + more)[..|rs + more| - 1] == rs + more[..|more| - 1];
    }
  }
}
