/** The matching round, the records it creates and the progress log of an application. */
module AgentRounds {
  import opened Common
  import opened Tasks
  import opened Readiness
  import opened AgentFlow
  import opened AgentInvariant
  import opened AgentFacts
  import opened AgentTheorems

  // ----- the round ----------------------------------------------------------

  lemma {:induction false} RoundCovers(w: World, run: nat, candidate: nat, jobs: seq<nat>, verdicts: map<nat,
        Verdict>, j: nat)
    requires WInv(w) && (forall k :: k in jobs ==> Matchable(w, run, candidate, k)) && j in jobs
    ensures MatchOf(MatchAll(w, run, candidate, jobs, verdicts).matches, run, j).Some?
  {
    hide WInv, MatchJob, Matchable;
    var n := |jobs| - 1;
    var w1 := MatchAll(w, run, candidate, jobs[..n], verdicts);
    var w2 := MatchJob(w1, run, candidate, jobs[n], VerdictOn(verdicts, jobs[n]));
    MatchAllKeeps(w, run, candidate, jobs[..n], verdicts);
    JobCovered(w1, run, candidate, jobs[n], VerdictOn(verdicts, jobs[n]));
    if j != jobs[n] {
      RoundCovers(w, run, candidate, jobs[..n], verdicts, j);
      MatchJobExtends(w1, run, candidate, jobs[n], VerdictOn(verdicts, jobs[n]));
      StillMatched(w1.matches, w2.matches, run, j);
    }
  }

  lemma JobCovered(w: World, run: nat, candidate: nat, job: nat, verdict: Verdict)
    requires WInv(w)
    ensures MatchOf(MatchJob(w, run, candidate, job, verdict).matches, run, job).Some?
  {
    hide WInv, MatchJob;
    Tables(w);
    MatchJobShape(w, run, candidate, job, verdict);
    var w' := MatchJob(w, run, candidate, job, verdict);
    if MatchOf(w.matches, run, job).None? {
      assert w'.matches[w.db.next].run == run && w'.matches[w.db.next].job == job;
    }
  }

  lemma StillMatched(matches: map<nat, Match>, matches': map<nat, Match>, run: nat, job: nat)
    requires MatchesKept(matches, matches') && MatchOf(matches, run, job).Some?
    ensures MatchOf(matches', run, job).Some?
  {
    var m := MatchOf(matches, run, job).value;
    assert SameMatch(matches[m], matches'[m]);
  }

  lemma {:induction false} NothingLeftToMatch(w: World, run: nat, candidate: nat, jobs: seq<nat>,
        verdicts: map<nat, Verdict>)
    requires WInv(w) && forall j :: j in jobs ==> MatchOf(w.matches, run, j).Some?
    ensures MatchAll(w, run, candidate, jobs, verdicts) == w
  {
    hide WInv, MatchJob;
    Tables(w);
    if jobs != [] {
      var n := |jobs| - 1;
      NothingLeftToMatch(w, run, candidate, jobs[..n], verdicts);
      MatchJobShape(w, run, candidate, jobs[n], VerdictOn(verdicts, jobs[n]));
    }
  }

  lemma SameInputs(db: Db, db': Db)
    requires db'.jobs == db.jobs && db'.snapshots == db.snapshots && db'.tasks == db.tasks
    ensures JobInputs(db') == JobInputs(db)
  {
    assert forall j :: JobTasks(db', j) == JobTasks(db, j);
    assert Active(db') == Active(db) && JobAge(db') == JobAge(db);
    forall j ensures LatestTask(db', j) == LatestTask(db, j) { assert JobTasks(db', j) == JobTasks(db, j); }
    assert EligibleIn(db', Active(db')) == EligibleIn(db, Active(db));
    AgesDiffer(db, EligibleIn(db, Active(db)));
  }

  lemma {:induction false} RoundKeepsTasks(w: World, run: nat, candidate: nat, jobs: seq<nat>, verdicts: map<nat,
        Verdict>)
    requires WInv(w) && forall j :: j in jobs ==> Matchable(w, run, candidate, j)
    ensures MatchAll(w, run, candidate, jobs, verdicts).db.tasks == w.db.tasks
    ensures MatchAll(w, run, candidate, jobs, verdicts).db.profiles == w.db.profiles
  {
    hide WInv, MatchJob, Matchable;
    if jobs != [] {
      var n := |jobs| - 1;
      var w1 := MatchAll(w, run, candidate, jobs[..n], verdicts);
      RoundKeepsTasks(w, run, candidate, jobs[..n], verdicts);
      MatchAllKeeps(w, run, candidate, jobs[..n], verdicts);
      Tables(w1);
      MatchJobShape(w1, run, candidate, jobs[n], VerdictOn(verdicts, jobs[n]));
    }
  }

  /** After a round every job it read has its one match, and either there is an
      application or the run is over. */
  lemma RoundIsComplete(w: World, run: nat, candidate: nat, verdicts: map<nat, Verdict>)
    requires WInv(w) && Loadable(w, run, candidate) && w.runs[run].status == RunRunning
    ensures var w' := Execute(w, run, candidate, verdicts);
      && (forall j :: j in JobInputs(w.db) ==> MatchOf(w'.matches, run, j).Some?)
      && run in w'.runs && (w'.runs[run].status == RunRunning <==> CountApps(w', run, candidate) != 0)
      && (w'.runs[run].status == RunFinished ==> w'.runs[run].reason == Some(NoMatch))
  {
    InputsAreMatchable(w.db);
    hide WInv, JobInputs, MatchAll;
    var w1 := MatchAll(w, run, candidate, JobInputs(w.db), verdicts);
    MatchAllKeeps(w, run, candidate, JobInputs(w.db), verdicts);
    forall j | j in JobInputs(w.db) ensures MatchOf(w1.matches, run, j).Some? {
      RoundCovers(w, run, candidate, JobInputs(w.db), verdicts, j);
    }
  }

  /** A second round over unchanged jobs changes nothing, whatever its verdicts. */
  lemma SecondRoundChangesNothing(w: World, run: nat, candidate: nat, verdicts: map<nat, Verdict>, again: map<nat,
        Verdict>)
    requires WInv(w)
    ensures var w' := Execute(w, run, candidate, verdicts); Execute(w', run, candidate, again) == w'
  {
    var w' := Execute(w, run, candidate, verdicts);
    hide JobInputs, MatchAll;
    if Loadable(w, run, candidate) && w.runs[run].status == RunRunning {
      RoundIsComplete(w, run, candidate, verdicts);
      ExecuteKeeps(w, run, candidate, verdicts);
      if w'.runs[run].status == RunRunning {
        InputsAgain(w, run, candidate, verdicts);
        NothingLeftToMatch(w', run, candidate, JobInputs(w'.db), again);
      }
    }
  }

  lemma InputsAgain(w: World, run: nat, candidate: nat, verdicts: map<nat, Verdict>)
    requires WInv(w) && Loadable(w, run, candidate) && w.runs[run].status == RunRunning
    ensures JobInputs(Execute(w, run, candidate, verdicts).db) == JobInputs(w.db)
  {
    InputsAreMatchable(w.db);
    hide WInv, JobInputs, MatchAll, CountApps;
    var w1 := MatchAll(w, run, candidate, JobInputs(w.db), verdicts);
    MatchAllKeeps(w, run, candidate, JobInputs(w.db), verdicts);
    RoundKeepsTasks(w, run, candidate, JobInputs(w.db), verdicts);
    SameInputs(w.db, w1.db);
  }

  /** A new match carries the verdict; a suitable job gets its application, its
      conversation and its creation event in the same transaction. */
  lemma VerdictDecides(w: World, run: nat, candidate: nat, job: nat, verdict: Verdict)
    requires WInv(w) && MatchOf(w.matches, run, job).None?
    ensures var w' := MatchJob(w, run, candidate, job, verdict); var m := w.db.next;
      && w'.matches == w.matches[m := Match(run, candidate, job, if verdict == Suitable then ApplicationCreated else StatusOf(verdict))]
      && w'.apps == (if verdict == Suitable then w.apps[m + 1 := App(run, m, candidate, job, Submitted)] else w.apps)
      && w'.conversations == (if verdict == Suitable then w.conversations[m + 2 := m + 1] else w.conversations)
      && w'.events == w.events + (if verdict == Suitable then [Event(m + 1, None, Submitted)] else [])
      && m !in w.matches && m + 1 !in w.apps && m + 2 !in w.conversations
  {
    hide WInv, MatchJob, Matches, Apps, Talks, Ids;
    Tables(w);
    FreeIds(w);
    MatchJobShape(w, run, candidate, job, verdict);
  }

  // ----- the records correspond ---------------------------------------------

  ghost predicate OnlyApp(apps: map<nat, App>, m: nat, a: nat) {
    a in apps && apps[a].match_ == m && forall b :: b in apps && apps[b].match_ == m ==> b == a
  }

  ghost predicate OnlyTalk(conversations: map<nat, nat>, a: nat, c: nat) {
    c in conversations && conversations[c] == a && forall d :: d in conversations && conversations[d] == a ==> d == c
  }

  /** At most one match per run and job and never `matched` once committed; matches
      marked `application_created`, applications, conversations and creation events
      are in bijection. */
  lemma RecordsCorrespond(ws: seq<World>, steps: seq<WorldStep>, n: nat)
    requires Trace(ws, steps) && n < |ws|
    ensures forall m, k :: m in ws[n].matches && k in ws[n].matches && m != k ==>
      ws[n].matches[m].run != ws[n].matches[k].run || ws[n].matches[m].job != ws[n].matches[k].job
    ensures forall m :: m in ws[n].matches ==> ws[n].matches[m].status != Matched
    ensures forall m :: m in ws[n].matches ==>
      (ws[n].matches[m].status == ApplicationCreated <==> exists a :: OnlyApp(ws[n].apps, m, a))
    ensures forall a :: a in ws[n].apps ==> ws[n].apps[a].match_ in ws[n].matches && OnlyApp(ws[n].apps, ws[n].apps[a].match_, a)
    ensures forall a :: a in ws[n].apps ==> exists c :: OnlyTalk(ws[n].conversations, a, c)
    ensures forall a :: a in ws[n].apps ==> OneCreation(History(ws[n].events, a))
    ensures forall i :: 0 <= i < |ws[n].events| ==> ws[n].events[i].app in ws[n].apps
  {
    TraceKeeps(ws, steps, n);
    MatchesUnique(ws[n]);
    AppsUnique(ws[n]);
    TalksUnique(ws[n]);
    CreationsUnique(ws[n]);
  }

  /** The first row of an application's history created it, no other did. */
  predicate OneCreation(h: seq<Event>) {
    h != [] && h[0].from.None? && h[0].to == Submitted && forall k :: 0 < k < |h| ==> h[k].from.Some?
  }

  lemma MatchesUnique(w: World)
    requires WInv(w)
    ensures forall m, k :: m in w.matches && k in w.matches && m != k ==>
      w.matches[m].run != w.matches[k].run || w.matches[m].job != w.matches[k].job
    ensures forall m :: m in w.matches ==> w.matches[m].status != Matched
  {
    Tables(w);
    hide WInv;
  }

  lemma AppIsOnly(apps: map<nat, App>, matches: map<nat, Match>, a: nat)
    requires Apps(apps, matches) && a in apps
    ensures AppOk(apps[a], matches) && OnlyApp(apps, apps[a].match_, a)
  {
    hide HasApp;
  }

  lemma CreatedHasApp(apps: map<nat, App>, matches: map<nat, Match>, m: nat)
    requires Apps(apps, matches) && m in matches && matches[m].status == ApplicationCreated
    ensures exists a :: OnlyApp(apps, m, a)
  {
    assert HasApp(apps, m);
    var a :| a in apps && apps[a].match_ == m;
    hide Apps;
    AppIsOnly(apps, matches, a);
  }

  lemma AppsUnique(w: World)
    requires WInv(w)
    ensures forall m :: m in w.matches ==> (w.matches[m].status == ApplicationCreated <==> exists a :: OnlyApp(w.apps, m, a))
    ensures forall a :: a in w.apps ==> w.apps[a].match_ in w.matches && OnlyApp(w.apps, w.apps[a].match_, a)
  {
    hide WInv, Apps, Matches, Talks, Log, Outcomes;
    Tables(w);
    forall a | a in w.apps
      ensures w.apps[a].match_ in w.matches && w.matches[w.apps[a].match_].status == ApplicationCreated
      ensures OnlyApp(w.apps, w.apps[a].match_, a)
    {
      AppIsOnly(w.apps, w.matches, a);
    }
    forall m | m in w.matches && w.matches[m].status == ApplicationCreated ensures exists a :: OnlyApp(w.apps, m, a) {
      CreatedHasApp(w.apps, w.matches, m);
    }
  }

  lemma TalksUnique(w: World)
    requires WInv(w)
    ensures forall a :: a in w.apps ==> exists c :: OnlyTalk(w.conversations, a, c)
  {
    Tables(w);
    hide WInv, Matches, Apps, Log, Outcomes;
    forall a | a in w.apps ensures exists c :: OnlyTalk(w.conversations, a, c) {
      var c :| c in w.conversations && w.conversations[c] == a;
      assert OnlyTalk(w.conversations, a, c);
    }
  }

  lemma HistoryOf(w: World, a: nat)
    requires Log(w.events, w.apps) && a in w.apps
    ensures Chain(History(w.events, a), w.apps[a].status)
  {
    hide History, Chain;
  }

  lemma ChainCreates(h: seq<Event>, status: AppStatus)
    requires Chain(h, status)
    ensures OneCreation(h)
  {
    forall k | 0 < k < |h| ensures h[k].from.Some? { ChainLink(h, status, k); }
  }

  lemma LogOwned(w: World)
    requires Log(w.events, w.apps)
    ensures forall i :: 0 <= i < |w.events| ==> w.events[i].app in w.apps
  {}

  lemma CreationsUnique(w: World)
    requires WInv(w)
    ensures forall a :: a in w.apps ==> OneCreation(History(w.events, a))
    ensures forall i :: 0 <= i < |w.events| ==> w.events[i].app in w.apps
  {
    hide WInv, Log, Matches, Apps, Talks, Outcomes, History, Chain, OneCreation;
    Tables(w);
    LogOwned(w);
    forall a | a in w.apps ensures OneCreation(History(w.events, a)) {
      HistoryOf(w, a);
      ChainCreates(History(w.events, a), w.apps[a].status);
    }
  }

  // ----- the progress log ---------------------------------------------------

  lemma {:induction false} StagesRise(h: seq<Event>, status: AppStatus, k: nat)
    requires Chain(h, status) && k < |h|
    ensures Stage(h[k].to) >= k
  {
    if k > 0 { StagesRise(h, status, k - 1); }
  }

  lemma ChainRises(h: seq<Event>, status: AppStatus)
    requires Chain(h, status)
    ensures |h| <= 8
    ensures forall k :: 0 < k < |h| ==> Stage(h[k].to) > Stage(h[k - 1].to)
    ensures forall k :: 0 <= k < |h| && (h[k].to == Offer || h[k].to == Terminated) ==> k == |h| - 1
  {
    var last := |h| - 1;
    StagesRise(h, status, last);
    if last > 0 { StagesRise(h, status, last - 1); }
    forall k | 0 <= k < |h| ensures h[k].to == Offer || h[k].to == Terminated ==> k == last {
      if k < last { ChainLink(h, status, k + 1); }
    }
  }

  lemma ChainLink(h: seq<Event>, status: AppStatus, k: nat)
    requires Chain(h, status) && 0 < k < |h|
    ensures h[k].from == Some(h[k - 1].to) && ValidTransition(h[k - 1].to, h[k].to)
  {
    assert h[k].from == Some(h[k - 1].to);
  }

  /** The rows of an application form a chain from nothing over `submitted` to its
      status, strictly rising in stage, closed by offer or terminated, at most eight. */
  lemma ProgressIsAChain(ws: seq<World>, steps: seq<WorldStep>, n: nat, a: nat)
    requires Trace(ws, steps) && n < |ws| && a in ws[n].apps
    ensures var h := History(ws[n].events, a);
      && Chain(h, ws[n].apps[a].status) && |h| <= 8
      && (forall k :: 0 < k < |h| ==> Stage(h[k].to) > Stage(h[k - 1].to))
      && (forall k :: 0 <= k < |h| && (h[k].to == Offer || h[k].to == Terminated) ==> k == |h| - 1)
  {
    hide WInv, Trace, Chain, History, Log, Matches, Apps, Talks, Outcomes;
    TraceKeeps(ws, steps, n);
    Tables(ws[n]);
    HistoryOf(ws[n], a);
    ChainRises(History(ws[n].events, a), ws[n].apps[a].status);
  }

  /** The log itself is only ever appended to. */
  lemma LogOnlyGrows(ws: seq<World>, steps: seq<WorldStep>, i: nat, j: nat)
    requires Trace(ws, steps) && i <= j < |ws|
    ensures ws[i].events <= ws[j].events
  {
    TraceExtends(ws, steps, i, j);
  }

  // ----- offers and offer events --------------------------------------------

  lemma {:induction false} HistoryPrefix(events: seq<Event>, a: nat, i: nat)
    requires i <= |events|
    ensures History(events[..i], a) <= History(events, a)
    decreases |events| - i
  {
    if i == |events| {
      assert events[..i] == events;
    } else {
      HistoryPrefix(events, a, i + 1);
      HistoryStep(events, a, i);
    }
  }

  lemma HistoryStep(events: seq<Event>, a: nat, i: nat)
    requires i < |events|
    ensures History(events[..i + 1], a) == History(events[..i], a) + (if events[i].app == a then [events[i]] else [])
  {
    assert events[..i + 1][..i] == events[..i];
  }

  /** An event of `a` stands in its history where the shorter history ended. */
  lemma EventInHistory(events: seq<Event>, i: nat)
    requires i < |events|
    ensures var a := events[i].app; var p := |History(events[..i], a)|;
      p < |History(events, a)| && History(events, a)[p] == events[i]
  {
    HistoryStep(events, events[i].app, i);
    HistoryPrefix(events, events[i].app, i + 1);
  }

  lemma {:induction false} HistoryFound(events: seq<Event>, a: nat, p: nat)
    requires p < |History(events, a)|
    ensures exists i :: 0 <= i < |events| && events[i] == History(events, a)[p] && events[i].app == a
  {
    var n := |events| - 1;
    if p < |History(events[..n], a)| {
      HistoryFound(events[..n], a, p);
      var i :| 0 <= i < n && events[..n][i] == History(events[..n], a)[p] && events[..n][i].app == a;
      assert events[i] == History(events, a)[p];
    } else {
      assert events[n] == History(events, a)[p];
    }
  }

  /** The offer rows of one run, by their place in the log. */
  function OfferRows(w: World, r: nat): set<nat> {
    set i: nat | i < |w.events| && w.events[i].to == Offer && w.events[i].app in w.apps && w.apps[w.events[i].app].run == r
  }

  lemma LaterInHistory(events: seq<Event>, a: nat, i: nat, j: nat)
    requires i < j < |events| && events[i].app == a
    ensures |History(events[..i], a)| < |History(events[..j], a)|
  {
    HistoryStep(events, a, i);
    assert events[..j][..i + 1] == events[..i + 1];
    HistoryPrefix(events[..j], a, i + 1);
  }

  lemma OneOfferEach(w: World, i: nat, j: nat)
    requires Log(w.events, w.apps) && i < j < |w.events| && w.events[i].to == Offer && w.events[i].app in w.apps
    ensures w.events[j].app == w.events[i].app ==> w.events[j].to != Offer
  {
    hide History, Chain, Log;
    var a := w.events[i].app;
    if w.events[j].app == a {
      HistoryOf(w, a);
      EventInHistory(w.events, i);
      EventInHistory(w.events, j);
      LaterInHistory(w.events, a, i, j);
      NothingAfterOffer(History(w.events, a), w.apps[a].status, |History(w.events[..i], a)|);
    }
  }

  lemma NothingAfterOffer(h: seq<Event>, status: AppStatus, p: nat)
    requires Chain(h, status) && p < |h| && h[p].to == Offer
    ensures p == |h| - 1
  {
    hide Chain;
    if p + 1 < |h| { ChainLink(h, status, p + 1); }
  }

  lemma OfferedIff(w: World, a: nat)
    requires Log(w.events, w.apps) && a in w.apps
    ensures w.apps[a].status == Offer <==> exists i: nat :: i < |w.events| && w.events[i].app == a && w.events[i].to == Offer
  {
    var h := History(w.events, a);
    hide History;
    assert Chain(h, w.apps[a].status);
    if w.apps[a].status == Offer {
      HistoryFound(w.events, a, |h| - 1);
    }
    if i: nat :| i < |w.events| && w.events[i].app == a && w.events[i].to == Offer {
      EventInHistory(w.events, i);
      NothingAfterOffer(h, w.apps[a].status, |History(w.events[..i], a)|);
    }
  }

  lemma {:induction false} ImageSize(events: seq<Event>, s: set<nat>)
    requires forall i :: i in s ==> i < |events|
    requires forall i, j :: i in s && j in s && i != j ==> events[i].app != events[j].app
    ensures |set i | i in s :: events[i].app| == |s|
  {
    if s != {} {
      var x :| x in s;
      ImageSize(events, s - {x});
      var rest := set i | i in s - {x} :: events[i].app;
      assert (set i | i in s :: events[i].app) == rest + {events[x].app};
      assert events[x].app !in rest;
    }
  }

  /** The offer count of a run is the number of its progress rows that reach offer. */
  lemma OffersAreLogged(ws: seq<World>, steps: seq<WorldStep>, n: nat, r: nat)
    requires Trace(ws, steps) && n < |ws| && r in ws[n].runs
    ensures |OfferRows(ws[n], r)| == |Offers(ws[n].apps, r, ws[n].runs[r].candidate)|
  {
    TraceKeeps(ws, steps, n);
    CountOfferRows(ws[n], r);
  }

  lemma DistinctOffers(w: World, r: nat)
    requires Log(w.events, w.apps)
    ensures forall i, j :: i in OfferRows(w, r) && j in OfferRows(w, r) && i != j ==> w.events[i].app != w.events[j].app
  {
    hide Log;
    var rows := OfferRows(w, r);
    forall i, j | i in rows && j in rows && i != j ensures w.events[i].app != w.events[j].app {
      if i < j { OneOfferEach(w, i, j); } else { OneOfferEach(w, j, i); }
    }
  }

  lemma AppFacts(w: World, r: nat, a: nat)
    requires WInv(w) && r in w.runs && a in w.apps
    ensures Log(w.events, w.apps) && (w.apps[a].run == r ==> w.apps[a].candidate == w.runs[r].candidate)
  {
    hide WInv;
    Tables(w);
    AppRun(w, a);
  }

  lemma OfferedApp(w: World, r: nat, a: nat)
    requires WInv(w) && r in w.runs && a in w.apps
    ensures a in Offers(w.apps, r, w.runs[r].candidate) <==> exists i: nat :: i in OfferRows(w, r) && w.events[i].app == a
  {
    hide WInv, Log;
    AppFacts(w, r, a);
    OfferedIff(w, a);
    if a in Offers(w.apps, r, w.runs[r].candidate) {
      var i: nat :| i < |w.events| && w.events[i].app == a && w.events[i].to == Offer;
      assert i in OfferRows(w, r);
    }
  }

  lemma OfferedApps(w: World, r: nat)
    requires WInv(w) && r in w.runs
    ensures Offers(w.apps, r, w.runs[r].candidate) == set i | i in OfferRows(w, r) :: w.events[i].app
  {
    hide WInv;
    var image := set i | i in OfferRows(w, r) :: w.events[i].app;
    forall a ensures a in Offers(w.apps, r, w.runs[r].candidate) <==> a in image {
      if a in w.apps { OfferedApp(w, r, a); }
    }
  }

  lemma CountOfferRows(w: World, r: nat)
    requires WInv(w) && r in w.runs
    ensures |OfferRows(w, r)| == |Offers(w.apps, r, w.runs[r].candidate)|
  {
    hide WInv, Log;
    Tables(w);
    DistinctOffers(w, r);
    ImageSize(w.events, OfferRows(w, r));
    OfferedApps(w, r);
  }
}
