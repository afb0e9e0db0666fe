/** What holds of the job list in every run of the license server. */
module LeaseRuns {
  import opened Basics
  import opened Leases

  datatype Event =
    | OpenAt(self: Self, who: Who, code: nat, now: int)
    | CheckAt(who: Who, now: int)
    | CloseAt(who: Who, now: int)
    | TickAt(now: int)

  function After(lic: License, jobs: seq<Job>, e: Event): seq<Job> {
    match e
    case OpenAt(s, w, c, t) => Opened(lic, jobs, s, w, c, t)
    case CheckAt(w, t) => Refreshed(jobs, w, t)
    case CloseAt(w, t) => Closed(jobs, w)
    case TickAt(t) => Kept(jobs, t, 0)
  }

  function Run(lic: License, jobs: seq<Job>, es: seq<Event>): seq<Job>
    decreases es
  {
    if es == [] then jobs else Run(lic, After(lic, jobs, es[0]), es[1..])
  }

  /** The server does, event by event, what a run says. */
  method Serve(s: Server, e: Event)
    modifies s
    ensures s.jobs == After(s.lic, old(s.jobs), e)
  {
    match e {
      case OpenAt(self, w, c, t) =>
        var _ := s.Open(self, w, c, t);
      case CheckAt(w, t) =>
        var _ := s.Check(w, t);
      case CloseAt(w, t) =>
        s.Close(w);
      case TickAt(t) =>
        s.CleanList(t);
    }
  }

  // ---- the user limits ----

  function Users(jobs: seq<Job>, code: nat, tag: nat): nat {
    Count(jobs, code, tag, |jobs|)
  }

  ghost predicate WithinQuota(lic: License, jobs: seq<Job>) {
    forall code, link :: LimitedUsers(jobs, code, link) <= lic.quota(link)
  }

  /** How many jobs of a program fall under the limit that a block keeps. */
  function LimitedUsers(jobs: seq<Job>, code: nat, link: nat): nat {
    Users(jobs, code, link + 1)
  }

  lemma {:induction false} UsersOfConcat(p: seq<Job>, q: seq<Job>, code: nat, tag: nat)
    ensures Users(p + q, code, tag) == Users(p, code, tag) + Users(q, code, tag)
    decreases |q|
  {
    if q == [] {
      assert p + q == p;
    } else {
      var q', x := q[..|q| - 1], q[|q| - 1];
      UsersOfConcat(p, q', code, tag);
      assert p + q == (p + q') + [x] && q == q' + [x];
      UsersOfPush(p + q', x, code, tag);
      UsersOfPush(q', x, code, tag);
    }
  }

  lemma UsersOfPush(p: seq<Job>, x: Job, code: nat, tag: nat)
    ensures Users(p + [x], code, tag) == Users(p, code, tag) + if x.code == code && x.tag == tag then 1 else 0
  {
    CountOfPrefix(p, [x], code, tag, |p|);
  }

  lemma {:induction false} CountOfPrefix(p: seq<Job>, q: seq<Job>, code: nat, tag: nat, n: nat)
    requires n <= |p|
    ensures Count(p + q, code, tag, n) == Count(p, code, tag, n)
  {
    if n > 0 {
      CountOfPrefix(p, q, code, tag, n - 1);
    }
  }

  lemma UsersOfOne(x: Job, code: nat, tag: nat)
    ensures Users([x], code, tag) == if x.code == code && x.tag == tag then 1 else 0
  {
    assert [] + [x] == [x];
    UsersOfPush([], x, code, tag);
  }

  /** Neither a sign of life, nor a close, nor a purge gives a program more users. */
  lemma {:induction false} OthersAddNoUsers(lic: License, jobs: seq<Job>, e: Event, code: nat, tag: nat)
    requires !e.OpenAt?
    ensures Users(After(lic, jobs, e), code, tag) <= Users(jobs, code, tag)
  {
    match e
    case CheckAt(w, t) =>
      var k := Place(jobs, w, 0);
      if k < |jobs| {
        SplitAt(jobs, k, code, tag);
        SplitAt(Refreshed(jobs, w, t), k, code, tag);
        assert Refreshed(jobs, w, t)[k + 1..] == jobs[k + 1..];
        UsersOfOne(jobs[k], code, tag);
        UsersOfOne(Refreshed(jobs, w, t)[k], code, tag);
      }
    case CloseAt(w, t) =>
      var k := Place(jobs, w, 0);
      if k < |jobs| {
        SplitAt(jobs, k, code, tag);
        UsersOfConcat(jobs[..k], jobs[k + 1..], code, tag);
      }
    case TickAt(t) =>
      KeptAddsNoUsers(jobs, t, 0, code, tag);
      assert jobs[0..] == jobs;
  }

  lemma SplitAt(jobs: seq<Job>, k: nat, code: nat, tag: nat)
    requires k < |jobs|
    ensures Users(jobs, code, tag) ==
            Users(jobs[..k], code, tag) + Users([jobs[k]], code, tag) + Users(jobs[k + 1..], code, tag)
  {
    assert jobs == jobs[..k] + ([jobs[k]] + jobs[k + 1..]);
    UsersOfConcat(jobs[..k], [jobs[k]] + jobs[k + 1..], code, tag);
    UsersOfConcat([jobs[k]], jobs[k + 1..], code, tag);
  }

  lemma {:induction false} KeptAddsNoUsers(jobs: seq<Job>, now: int, i: nat, code: nat, tag: nat)
    requires i <= |jobs|
    ensures Users(Kept(jobs, now, i), code, tag) <= Users(jobs[i..], code, tag)
    decreases |jobs| - i
  {
    if i < |jobs| {
      KeptAddsNoUsers(jobs, now, i + 1, code, tag);
      assert jobs[i..] == [jobs[i]] + jobs[i + 1..];
      UsersOfConcat([jobs[i]], jobs[i + 1..], code, tag);
      UsersOfConcat(if Stale(jobs[i], now) then [] else [jobs[i]], Kept(jobs, now, i + 1), code, tag);
    }
  }

  /** An open request may give a program more users only if that is the program it asks for. */
  lemma OpenKeepsQuota(lic: License, jobs: seq<Job>, e: Event, code: nat, link: nat)
    requires WellFormed(lic) && e.OpenAt? && (code < 256 || e.code != code)
    requires LimitedUsers(jobs, code, link) <= lic.quota(link)
    ensures LimitedUsers(After(lic, jobs, e), code, link) <= lic.quota(link)
  {
    var jobs' := After(lic, jobs, e);
    if jobs' != jobs {
      UsersOfConcat([jobs'[0]], jobs, code, link + 1);
      UsersOfOne(jobs'[0], code, link + 1);
    }
  }

  /** No open request in the run is for this program code. */
  predicate Unasked(es: seq<Event>, code: nat) {
    forall i :: 0 <= i < |es| && es[i].OpenAt? ==> es[i].code != code
  }

  /** In every run no program ever has more users than the license allows it; for codes that do not
      fit in a byte, as long as no request is for them. */
  lemma {:induction false} UsersAreLimited(lic: License, jobs: seq<Job>, es: seq<Event>, code: nat, link: nat)
    requires WellFormed(lic) && LimitedUsers(jobs, code, link) <= lic.quota(link)
    requires code < 256 || Unasked(es, code)
    ensures LimitedUsers(Run(lic, jobs, es), code, link) <= lic.quota(link)
    decreases es
  {
    if es != [] {
      if es[0].OpenAt? {
        OpenKeepsQuota(lic, jobs, es[0], code, link);
      } else {
        OthersAddNoUsers(lic, jobs, es[0], code, link + 1);
      }
      UsersAreLimited(lic, After(lic, jobs, es[0]), es[1..], code, link);
    }
  }

  /** Every program code that is asked for is one of these. */
  predicate AsksFor(es: seq<Event>, codes: set<nat>) {
    forall i :: 0 <= i < |es| && es[i].OpenAt? ==> es[i].code in codes
  }

  predicate AllBytes(codes: set<nat>) {
    forall c :: c in codes ==> c < 256
  }

  lemma QuotaIsKept(lic: License, jobs: seq<Job>, es: seq<Event>, codes: set<nat>)
    requires WellFormed(lic) && WithinQuota(lic, jobs) && AsksFor(es, codes) && AllBytes(codes)
    ensures WithinQuota(lic, Run(lic, jobs, es))
  {
    forall code, link: nat ensures LimitedUsers(Run(lic, jobs, es), code, link) <= lic.quota(link) {
      assert LimitedUsers(jobs, code, link) <= lic.quota(link);
      UsersAreLimited(lic, jobs, es, code, link);
    }
  }

  // ---- requests for codes that do not fit in a byte ----

  /** The license limits the users of the program that a block is found for, and is not expired. */
  predicate Limits(lic: License, who: Who, code: nat, now: int) {
    Looked(lic, who, code).Some? &&
    var g := Looked(lic, who, code).value;
    g.limited && (g.expires == 0 || now < g.expires)
  }

  /** The same request n times over. */
  function Again(e: Event, n: nat): (es: seq<Event>)
    ensures |es| == n && forall i :: 0 <= i < n ==> es[i] == e
  {
    seq(n, _ => e)
  }

  /** Jobs for a code beyond a byte are entered under a limit, and never counted. */
  lemma {:induction false} BigCodesAddUp(lic: License, jobs: seq<Job>, e: Event, link: nat, n: nat)
    requires WellFormed(lic) && e.OpenAt? && e.code >= 256 && Limits(lic, e.who, e.code, e.now)
    requires var g := Looked(lic, e.who, e.code).value; g.link == link && Users(jobs, g.code, link + 1) < lic.quota(link)
    ensures LimitedUsers(Run(lic, jobs, Again(e, n)), e.code, link) == LimitedUsers(jobs, e.code, link) + n
    decreases n
  {
    if n > 0 {
      var g, jobs' := Looked(lic, e.who, e.code).value, After(lic, jobs, e);
      var x := Job(e.who, e.code, e.now, link + 1);
      assert g.code == e.code % 256 != e.code;
      assert jobs' == [x] + jobs;
      UsersOfConcat([x], jobs, g.code, link + 1);
      UsersOfOne(x, g.code, link + 1);
      UsersOfConcat([x], jobs, e.code, link + 1);
      UsersOfOne(x, e.code, link + 1);
      BigCodesAddUp(lic, jobs', e, link, n - 1);
      assert Again(e, n)[0] == e && Again(e, n)[1..] == Again(e, n - 1);
    }
  }

  /** Every run that asks for these codes, from an empty list, keeps the limits. */
  ghost predicate AlwaysWithinQuota(lic: License, codes: set<nat>) {
    forall es :: AsksFor(es, codes) ==> WithinQuota(lic, Run(lic, [], es))
  }

  /** Where the license gives every larger one of these codes a limit of at least one user, the limits
      are kept in every run exactly if the codes all fit in a byte. */
  lemma QuotaIsKeptExactlyForBytes(lic: License, codes: set<nat>, who: Who, now: int)
    requires WellFormed(lic)
    requires forall c :: c in codes && c >= 256 ==>
      Limits(lic, who, c, now) && lic.quota(Looked(lic, who, c).value.link) > 0
    ensures AlwaysWithinQuota(lic, codes) <==> AllBytes(codes)
  {
    if AllBytes(codes) {
      forall es | AsksFor(es, codes) ensures WithinQuota(lic, Run(lic, [], es)) {
        QuotaIsKept(lic, [], es, codes);
      }
    } else {
      var c :| c in codes && c >= 256;
      var g := Looked(lic, who, c).value;
      var e := OpenAt(Nameless, who, c, now);
      var n := lic.quota(g.link) + 1;
      BigCodesAddUp(lic, [], e, g.link, n);
      assert AsksFor(Again(e, n), codes);
      assert LimitedUsers(Run(lic, [], Again(e, n)), c, g.link) > lic.quota(g.link);
    }
  }

  /** One user of program 11 is allowed, and two requests for code 267 are granted. */
  lemma TwoUsersForOne()
    ensures var lic := License((w: Who, b: nat) => if b == 11 then Some(Grant(11, 0, true, 0)) else None, (k: nat) => 1);
            var first, second := OpenAt(Nameless, Who("a", 1), 267, 0), OpenAt(Nameless, Who("b", 2), 267, 0);
            && WellFormed(lic)
            && Verdict(lic, Run(lic, [], [first]), Nameless, Who("b", 2), 267, 0) == OK
            && LimitedUsers(Run(lic, [], [first, second]), 267, 0) == 2
  {
    var lic := License((w: Who, b: nat) => if b == 11 then Some(Grant(11, 0, true, 0)) else None, (k: nat) => 1);
    var first, second := OpenAt(Nameless, Who("a", 1), 267, 0), OpenAt(Nameless, Who("b", 2), 267, 0);
    var x, y := Job(Who("a", 1), 267, 0, 1), Job(Who("b", 2), 267, 0, 1);
    assert [first, second][1..] == [second] && [first][1..] == [] && [second][1..] == [];
    UsersOfOne(x, 11, 1);
    assert [x] + [] == [x] && After(lic, [], first) == [x];
    assert Run(lic, [], [first]) == Run(lic, [x], []) == [x];
    assert Users([x], 11, 1) == 0 && After(lic, [x], second) == [y] + [x];
    assert Run(lic, [], [first, second]) == Run(lic, [x], [second]) == Run(lic, [y] + [x], []) == [y] + [x];
    UsersOfConcat([y], [x], 267, 1);
    UsersOfOne(x, 267, 1);
    UsersOfOne(y, 267, 1);
  }

  // ---- where jobs come from ----

  /** The request e entered the job x: under a block, found for the caller or the server, that was not
      expired at the time. */
  ghost predicate EnteredBy(lic: License, e: Event, x: Job) {
    && e.OpenAt? && x.who == e.who && x.code == e.code
    && exists name :: LicensedAs(lic, e, x, name)
  }

  predicate LicensedAs(lic: License, e: Event, x: Job, name: Who) {
    && e.OpenAt? && (name == e.who || (e.self.Known? && (name == e.self.own || name in e.self.others)))
    && lic.find(name, e.code % 256).Some?
    && var g := lic.find(name, e.code % 256).value;
       !Expired(g, e.now) && x.tag == if g.limited then g.link + 1 else 0
  }

  ghost predicate AllEntered(lic: License, jobs: seq<Job>, es: seq<Event>) {
    forall k :: 0 <= k < |jobs| ==> exists i :: 0 <= i < |es| && EnteredBy(lic, es[i], jobs[k])
  }

  lemma {:induction false} KeptAreThere(jobs: seq<Job>, now: int, i: nat)
    requires i <= |jobs|
    ensures forall x :: x in Kept(jobs, now, i) ==> x in jobs
    decreases |jobs| - i
  {
    if i < |jobs| {
      KeptAreThere(jobs, now, i + 1);
    }
  }

  /** The same job, possibly refreshed. */
  predicate SameJob(y: Job, x: Job) {
    y.(date := x.date) == x
  }

  /** Whatever an event leaves was there before, up to its date, or has just been entered. */
  lemma AfterKnows(lic: License, jobs: seq<Job>, e: Event, x: Job)
    requires x in After(lic, jobs, e)
    ensures EnteredBy(lic, e, x) || exists y :: y in jobs && SameJob(y, x)
  {
    assert SameJob(x, x);
    match e
    case OpenAt(s, w, c, t) => OpenKnows(lic, jobs, e, x);
    case CheckAt(w, t) =>
      var k := Place(jobs, w, 0);
      var i :| 0 <= i < |jobs| && Refreshed(jobs, w, t)[i] == x;
      assert jobs[i] in jobs && SameJob(jobs[i], x);
    case CloseAt(w, t) => assert x in jobs;
    case TickAt(t) => KeptAreThere(jobs, t, 0);
  }

  lemma OpenKnows(lic: License, jobs: seq<Job>, e: Event, x: Job)
    requires e.OpenAt? && x in Opened(lic, jobs, e.self, e.who, e.code, e.now)
    ensures EnteredBy(lic, e, x) || x in jobs
  {
    if Opened(lic, jobs, e.self, e.who, e.code, e.now) != jobs {
      var name := EnteredUnexpired(lic, jobs, e.self, e.who, e.code, e.now);
      if x !in jobs {
        assert LicensedAs(lic, e, x, name);
      }
    }
  }

  /** In every run every job was entered by a request under a block that was not expired then. */
  lemma {:induction false} JobsWereLicensed(lic: License, es: seq<Event>, n: nat)
    requires n <= |es|
    ensures AllEntered(lic, Run(lic, [], es[..n]), es[..n])
    decreases n
  {
    if n > 0 {
      JobsWereLicensed(lic, es, n - 1);
      RunLast(lic, [], es, n);
      var jobs, jobs' := Run(lic, [], es[..n - 1]), Run(lic, [], es[..n]);
      forall k | 0 <= k < |jobs'| ensures exists i :: 0 <= i < n && EnteredBy(lic, es[..n][i], jobs'[k]) {
        AfterKnows(lic, jobs, es[n - 1], jobs'[k]);
        if EnteredBy(lic, es[n - 1], jobs'[k]) {
          assert es[..n][n - 1] == es[n - 1];
        } else {
          var y :| y in jobs && SameJob(y, jobs'[k]);
          SameOrigin(lic, es, n, jobs, y, jobs'[k]);
        }
      }
    }
  }

  lemma SameOrigin(lic: License, es: seq<Event>, n: nat, jobs: seq<Job>, y: Job, x: Job)
    requires 0 < n <= |es| && AllEntered(lic, jobs, es[..n - 1]) && y in jobs && SameJob(y, x)
    ensures exists i :: 0 <= i < n && EnteredBy(lic, es[..n][i], x)
  {
    var k :| 0 <= k < |jobs| && jobs[k] == y;
    var i :| 0 <= i < n - 1 && EnteredBy(lic, es[..n - 1][i], jobs[k]);
    var name :| LicensedAs(lic, es[i], y, name);
    assert LicensedAs(lic, es[i], x, name);
    assert es[..n][i] == es[i];
  }

  lemma {:induction false} RunLast(lic: License, jobs: seq<Job>, es: seq<Event>, n: nat)
    requires 0 < n <= |es|
    ensures Run(lic, jobs, es[..n]) == After(lic, Run(lic, jobs, es[..n - 1]), es[n - 1])
    decreases n
  {
    if n > 1 {
      RunLast(lic, After(lic, jobs, es[0]), es[1..], n - 1);
      assert es[..n][1..] == es[1..][..n - 1] && es[..n - 1][1..] == es[1..][..n - 2];
    } else {
      assert es[..1][1..] == [] && es[..0] == [];
    }
  }

  // ---- the life of a lease ----

  /** When the jobs of a process, from i on, were last heard of. */
  function Dates(jobs: seq<Job>, who: Who, i: nat): seq<int>
    requires i <= |jobs|
    decreases |jobs| - i
  {
    if i == |jobs| then []
    else (if Same(jobs[i].who, who) then [jobs[i].date] else []) + Dates(jobs, who, i + 1)
  }

  /** The dates that a purge lets stand. */
  function Recent(ds: seq<int>, now: int): seq<int> {
    if ds == [] then [] else (if now - ds[0] > CHECK_DELTA then [] else [ds[0]]) + Recent(ds[1..], now)
  }

  lemma {:induction false} DatesOfKept(jobs: seq<Job>, now: int, who: Who, i: nat)
    requires i <= |jobs|
    ensures Dates(Kept(jobs, now, i), who, 0) == Recent(Dates(jobs, who, i), now)
    decreases |jobs| - i
  {
    if i < |jobs| {
      DatesOfKept(jobs, now, who, i + 1);
      OneKept(jobs[i], Kept(jobs, now, i + 1), Dates(jobs, who, i + 1), now, who);
    }
  }

  /** One job more in front. */
  lemma OneKept(x: Job, kept: seq<Job>, ds: seq<int>, now: int, who: Who)
    requires Dates(kept, who, 0) == Recent(ds, now)
    ensures Dates((if Stale(x, now) then [] else [x]) + kept, who, 0)
         == Recent((if Same(x.who, who) then [x.date] else []) + ds, now)
  {
    RecentOfCons(x.date, ds, now);
    DatesOfCons(x, kept, who);
    assert [] + ds == ds && [] + kept == kept && [] + Recent(ds, now) == Recent(ds, now);
  }

  lemma RecentOfCons(d: int, ds: seq<int>, now: int)
    ensures Recent([d] + ds, now) == (if now - d > CHECK_DELTA then [] else [d]) + Recent(ds, now)
  {
    assert ([d] + ds)[1..] == ds;
  }

  lemma {:induction false} DatesOfTail(x: Job, jobs: seq<Job>, who: Who, i: nat)
    requires i <= |jobs|
    ensures Dates([x] + jobs, who, i + 1) == Dates(jobs, who, i)
    decreases |jobs| - i
  {
    if i < |jobs| {
      DatesOfTail(x, jobs, who, i + 1);
    }
  }

  lemma DatesOfCons(x: Job, jobs: seq<Job>, who: Who)
    ensures Dates([x] + jobs, who, 0) == (if Same(x.who, who) then [x.date] else []) + Dates(jobs, who, 0)
  {
    DatesOfTail(x, jobs, who, 0);
  }

  /** A sign of life sets the date of the process's first job, and of no other process. */
  lemma DatesOfRefreshed(jobs: seq<Job>, whose: Who, now: int, who: Who, i: nat)
    requires i <= Place(jobs, whose, 0)
    ensures var ds := Dates(jobs, who, i);
            Dates(Refreshed(jobs, whose, now), who, i) == if Same(whose, who) && ds != [] then [now] + ds[1..] else ds
  {
    var k := Place(jobs, whose, 0);
    if k < |jobs| {
      DatesWith(jobs, k, whose, jobs[k].(date := now), who, i);
    } else {
      NoDates(jobs, whose, who, i);
    }
  }

  /** The first job of a process gets another date. */
  lemma {:induction false} DatesWith(jobs: seq<Job>, k: nat, whose: Who, x: Job, who: Who, i: nat)
    requires i <= k < |jobs| && x.who == jobs[k].who
    requires Same(jobs[k].who, whose) && forall j :: 0 <= j < k ==> !Same(jobs[j].who, whose)
    ensures Same(whose, who) ==> Dates(jobs, who, i) != []
    ensures Dates(jobs[k := x], who, i) ==
            if Same(whose, who) then [x.date] + Dates(jobs, who, i)[1..] else Dates(jobs, who, i)
    decreases k - i
  {
    assert jobs[k := x][i] == if i < k then jobs[i] else x;
    if i < k {
      assert !Same(jobs[i].who, whose);
      DatesWith(jobs, k, whose, x, who, i + 1);
    } else {
      DatesAfter(jobs, k, x, who, k + 1);
    }
  }

  lemma {:induction false} DatesAfter(jobs: seq<Job>, k: nat, x: Job, who: Who, i: nat)
    requires k < i <= |jobs|
    ensures Dates(jobs[k := x], who, i) == Dates(jobs, who, i)
    decreases |jobs| - i
  {
    if i < |jobs| {
      DatesAfter(jobs, k, x, who, i + 1);
    }
  }

  /** A close takes away the process's first job, and of no other process. */
  lemma DatesOfClosed(jobs: seq<Job>, whose: Who, who: Who, i: nat)
    requires i <= Place(jobs, whose, 0)
    ensures var ds := Dates(jobs, who, i);
            i <= |Closed(jobs, whose)| && Dates(Closed(jobs, whose), who, i) == if Same(whose, who) && ds != [] then ds[1..] else ds
    decreases |jobs| - i
  {
    var k := Place(jobs, whose, 0);
    if k < |jobs| {
      DatesWithout(jobs, k, whose, who, i);
    } else {
      assert Closed(jobs, whose) == jobs;
      NoDates(jobs, whose, who, i);
    }
  }

  /** The first job of a process is gone. */
  lemma {:induction false} DatesWithout(jobs: seq<Job>, k: nat, whose: Who, who: Who, i: nat)
    requires i <= k < |jobs| && Same(jobs[k].who, whose) && forall j :: 0 <= j < k ==> !Same(jobs[j].who, whose)
    ensures Same(whose, who) ==> Dates(jobs, who, i) != []
    ensures Dates(Without(jobs, k), who, i) ==
            if Same(whose, who) then Dates(jobs, who, i)[1..] else Dates(jobs, who, i)
    decreases k - i
  {
    if i < k {
      DatesWithout(jobs, k, whose, who, i + 1);
    } else {
      DatesBeyond(jobs, k, who, k + 1);
    }
  }

  lemma {:induction false} NoDates(jobs: seq<Job>, whose: Who, who: Who, i: nat)
    requires i <= |jobs| && forall j :: 0 <= j < |jobs| ==> !Same(jobs[j].who, whose)
    ensures Same(whose, who) ==> Dates(jobs, who, i) == []
    decreases |jobs| - i
  {
    if i < |jobs| {
      NoDates(jobs, whose, who, i + 1);
    }
  }

  lemma {:induction false} DatesBeyond(jobs: seq<Job>, k: nat, who: Who, i: nat)
    requires k < i <= |jobs|
    ensures Dates(Without(jobs, k), who, i - 1) == Dates(jobs, who, i)
    decreases |jobs| - i
  {
    if i < |jobs| {
      DatesBeyond(jobs, k, who, i + 1);
    }
  }

  /** What an event does to the dates of a process. */
  lemma DatesAfterEvent(lic: License, jobs: seq<Job>, e: Event, who: Who)
    ensures var ds, ds' := Dates(jobs, who, 0), Dates(After(lic, jobs, e), who, 0);
            && (e.OpenAt? ==> ds' == ds || (Same(e.who, who) && ds' == [e.now] + ds))
            && (e.CheckAt? ==> ds' == if Same(e.who, who) && ds != [] then [e.now] + ds[1..] else ds)
            && (e.CloseAt? ==> ds' == if Same(e.who, who) && ds != [] then ds[1..] else ds)
            && (e.TickAt? ==> ds' == Recent(ds, e.now))
  {
    match e
    case OpenAt(s, w, c, t) =>
      if Opened(lic, jobs, s, w, c, t) != jobs {
        DatesOfCons(Opened(lic, jobs, s, w, c, t)[0], jobs, who);
      }
    case CheckAt(w, t) =>
      DatesOfRefreshed(jobs, w, t, who, 0);
    case CloseAt(w, t) =>
      DatesOfClosed(jobs, w, who, 0);
    case TickAt(t) =>
      DatesOfKept(jobs, t, who, 0);
  }

  /** When a process that was heard of at last was heard of last in the end. */
  function LastHeard(es: seq<Event>, who: Who, last: int): int
    decreases es
  {
    if es == [] then last
    else LastHeard(es[1..], who, if es[0].CheckAt? && Same(es[0].who, who) then es[0].now else last)
  }

  /** The process neither starts again nor closes, and nothing happens more than 900 seconds after
      it was last heard of. */
  predicate Attended(es: seq<Event>, who: Who, last: int)
    decreases es
  {
    es == [] ||
    (var e := es[0];
     && e.now <= last + CHECK_DELTA
     && ((e.OpenAt? || e.CloseAt?) ==> !Same(e.who, who))
     && Attended(es[1..], who, if e.CheckAt? && Same(e.who, who) then e.now else last))
  }

  /** A process with one job, that is refreshed in time, keeps its job, whatever the others do. */
  lemma {:induction false} AttendedIsKept(lic: License, jobs: seq<Job>, es: seq<Event>, who: Who, last: int)
    requires Dates(jobs, who, 0) == [last] && Attended(es, who, last)
    ensures Dates(Run(lic, jobs, es), who, 0) == [LastHeard(es, who, last)]
    decreases es
  {
    if es != [] {
      var e := es[0];
      DatesAfterEvent(lic, jobs, e, who);
      assert e.TickAt? ==> Recent([last], e.now) == [last];
      AttendedIsKept(lic, After(lic, jobs, e), es[1..], who, if e.CheckAt? && Same(e.who, who) then e.now else last);
    }
  }

  /** Purges at most 300 seconds apart, the last of them so far at time p, until time end. */
  predicate Ticking(es: seq<Event>, p: int, end: int)
    decreases es
  {
    if es == [] then end <= p + 300
    else if es[0].TickAt? then es[0].now <= p + 300 && Ticking(es[1..], es[0].now, end)
    else Ticking(es[1..], p, end)
  }

  /** The process is not heard of. */
  predicate Silent(es: seq<Event>, who: Who) {
    forall i :: 0 <= i < |es| && (es[i].OpenAt? || es[i].CheckAt?) ==> !Same(es[i].who, who)
  }

  /** No job of the process has been heard of since. */
  predicate NotSince(jobs: seq<Job>, who: Who, last: int) {
    forall i :: 0 <= i < |Dates(jobs, who, 0)| ==> Dates(jobs, who, 0)[i] <= last
  }

  lemma {:induction false} RecentAreOld(ds: seq<int>, now: int, last: int)
    requires forall i :: 0 <= i < |ds| ==> ds[i] <= last
    ensures forall i :: 0 <= i < |Recent(ds, now)| ==> Recent(ds, now)[i] <= last
    ensures now > last + CHECK_DELTA ==> Recent(ds, now) == []
  {
    if ds != [] {
      RecentAreOld(ds[1..], now, last);
    }
  }

  /** A process not heard of for more than 1200 seconds has no job left. */
  lemma {:induction false} SilentIsGone(lic: License, jobs: seq<Job>, es: seq<Event>, who: Who, last: int, p: int, end: int)
    requires NotSince(jobs, who, last) && Silent(es, who) && Ticking(es, p, end) && end > last + CHECK_DELTA + 300
    requires p <= last + CHECK_DELTA || Dates(jobs, who, 0) == []
    ensures Dates(Run(lic, jobs, es), who, 0) == []
    decreases es
  {
    if es != [] {
      var e := es[0];
      DatesAfterEvent(lic, jobs, e, who);
      RecentAreOld(Dates(jobs, who, 0), e.now, last);
      assert Silent(es[1..], who);
      SilentIsGone(lic, After(lic, jobs, e), es[1..], who, last, if e.TickAt? then e.now else p, end);
    }
  }

  /** After exactly 1200 seconds it can still be there. */
  lemma StillThereAtTheLimit(lic: License)
    ensures var who := Who("h", 1);
            var jobs, es := [Job(who, 0, 0, 0)], [TickAt(300), TickAt(600), TickAt(900)];
            Ticking(es, 0, 1200) && Dates(Run(lic, jobs, es), who, 0) == [0]
  {
    var who := Who("h", 1);
    var jobs := [Job(who, 0, 0, 0)];
    assert Kept(jobs, 300, 1) == Kept(jobs, 600, 1) == Kept(jobs, 900, 1) == [];
    assert !Stale(jobs[0], 300) && !Stale(jobs[0], 600) && !Stale(jobs[0], 900);
    assert Kept(jobs, 300, 0) == [jobs[0]] + [] == jobs;
    assert Kept(jobs, 600, 0) == [jobs[0]] + [] == jobs;
    assert Kept(jobs, 900, 0) == [jobs[0]] + [] == jobs;
    var es := [TickAt(300), TickAt(600), TickAt(900)];
    assert es[1..] == [TickAt(600), TickAt(900)] && es[1..][1..] == [TickAt(900)] && es[1..][1..][1..] == [];
  }
}
