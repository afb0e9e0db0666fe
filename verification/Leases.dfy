/** The license server's list of running jobs: what requests and the periodic purge do to it, and
    what therefore holds of every run. */
module Leases {
  import opened Basics

  const CHECK_DELTA := 900
  const SERVER_CODE := 3

  const OK := 0
  const NOTLIC := 5
  const TIMEXP := 6
  const USRLIM := 7
  const UNKNO := 8
  const SRVREQ := 9

  /** Who asks: a process on a host. */
  datatype Who = Who(host: string, pid: nat)

  /** A job: who runs it, which program it is, when it was last heard of, and its tag, which is 0
      for a job without a user limit, and else one more than the block that keeps the limit. */
  datatype Job = Job(who: Who, code: nat, date: int, tag: nat)

  /** The block that licenses a request: its program, its expiration time or 0, whether there is a
      user limit, and where. */
  datatype Grant = Grant(code: nat, expires: nat, limited: bool, link: nat)

  /** A license file: the block found for a name and a program byte, and the user limits by block. */
  datatype License = License(find: (Who, nat) -> Option<Grant>, quota: nat -> nat)

  /** Blocks are found by a checksum over the lowest byte of the request's program code, among other
      things. */
  function Looked(lic: License, name: Who, code: nat): Option<Grant> {
    lic.find(name, code % 256)
  }

  /** The block found for a program byte is for that program. */
  ghost predicate WellFormed(lic: License) {
    forall who, b :: 0 <= b < 256 && lic.find(who, b).Some? ==> lic.find(who, b).value.code == b
  }

  /** What the server can find out about itself: no name; a name without an address; or its own name
      and address, with the other addresses it can be known by. */
  datatype Self = Nameless | Unresolved | Known(own: Who, others: seq<Who>)

  // ---- host names ----

  /** The name up to the colon, from place i on, in lower case. */
  function Stem(h: string, i: nat): string
    requires i <= |h|
    decreases |h| - i
  {
    if i == |h| || h[i] == ':' then [] else [Lower(h[i])] + Stem(h, i + 1)
  }

  method HostComp(h1: string, h2: string) returns (same: bool)
    ensures same <==> Stem(h1, 0) == Stem(h2, 0)
  {
    var i := 0;
    while i < |h1| && h1[i] != ':' && i < |h2| && h2[i] != ':'
      invariant i <= |h1| && i <= |h2|
      invariant Stem(h1, 0) == Stem(h2, 0) <==> Stem(h1, i) == Stem(h2, i)
    {
      var c1 := if 'A' <= h1[i] <= 'Z' then Lower(h1[i]) else h1[i];
      var c2 := if 'A' <= h2[i] <= 'Z' then Lower(h2[i]) else h2[i];
      SameStems(h1, h2, i);
      if c1 != c2 {
        return false;
      }
      i := i + 1;
    }
    same := (i == |h1| || h1[i] == ':') && (i == |h2| || h2[i] == ':');
  }

  lemma SameStems(h1: string, h2: string, i: nat)
    requires i < |h1| && h1[i] != ':' && i < |h2| && h2[i] != ':'
    ensures Stem(h1, i) == Stem(h2, i) <==> Lower(h1[i]) == Lower(h2[i]) && Stem(h1, i + 1) == Stem(h2, i + 1)
  {
    assert Stem(h1, i)[0] == Lower(h1[i]) && Stem(h1, i)[1..] == Stem(h1, i + 1);
    assert Stem(h2, i)[0] == Lower(h2[i]) && Stem(h2, i)[1..] == Stem(h2, i + 1);
  }

  /** The same process: host names without regard to case or to what follows a colon. */
  predicate Same(a: Who, b: Who) {
    a.pid == b.pid && Stem(a.host, 0) == Stem(b.host, 0)
  }

  /** How long the name is before the colon. */
  function Bare(h: string, i: nat): (n: nat)
    requires i <= |h|
    ensures i <= n <= |h| && (n < |h| ==> h[n] == ':') && forall k :: i <= k < n ==> h[k] != ':'
    decreases |h| - i
  {
    if i == |h| || h[i] == ':' then i else Bare(h, i + 1)
  }

  lemma {:induction false} StemIs(h: string, i: nat)
    requires i <= |h|
    ensures |Stem(h, i)| == Bare(h, i) - i
    ensures forall j :: 0 <= j < |Stem(h, i)| ==> Stem(h, i)[j] == Lower(h[i + j])
    decreases |h| - i
  {
    if i < |h| && h[i] != ':' {
      var tail := Stem(h, i + 1);
      StemIs(h, i + 1);
      forall j | 0 <= j < |Stem(h, i)| ensures Stem(h, i)[j] == Lower(h[i + j]) {
        if j > 0 {
          assert Stem(h, i)[j] == tail[j - 1] == Lower(h[i + 1 + (j - 1)]);
        }
      }
    }
  }

  /** Two processes are the same exactly if their numbers are, and their host names agree up to a colon,
      letter by letter and without regard to case. */
  lemma SameExactlyWhen(a: Who, b: Who)
    ensures Same(a, b) <==>
              && a.pid == b.pid && Bare(a.host, 0) == Bare(b.host, 0)
              && forall k :: 0 <= k < Bare(a.host, 0) ==> Lower(a.host[k]) == Lower(b.host[k])
  {
    StemLetters(a.host);
    StemLetters(b.host);
    var p, q := Stem(a.host, 0), Stem(b.host, 0);
    forall k | 0 <= k < |p| && k < |q| ensures p[k] == q[k] <==> Lower(a.host[k]) == Lower(b.host[k]) {
    }
    if Bare(a.host, 0) == Bare(b.host, 0) &&
       forall k :: 0 <= k < Bare(a.host, 0) ==> Lower(a.host[k]) == Lower(b.host[k]) {
      forall k | 0 <= k < |p| ensures p[k] == q[k] {
        assert Lower(a.host[k]) == Lower(b.host[k]);
      }
      assert p == q;
    }
  }

  lemma StemLetters(h: string)
    ensures |Stem(h, 0)| == Bare(h, 0) && forall k :: 0 <= k < |Stem(h, 0)| ==> Stem(h, 0)[k] == Lower(h[k])
  {
    StemIs(h, 0);
    forall k | 0 <= k < |Stem(h, 0)| ensures Stem(h, 0)[k] == Lower(h[k]) {
      assert Stem(h, 0)[k] == Lower(h[0 + k]);
    }
  }

  // ---- the list ----

  /** How many of the first n jobs run a program under the limit with this tag. */
  function Count(jobs: seq<Job>, code: nat, tag: nat, n: nat): nat
    requires n <= |jobs|
  {
    if n == 0 then 0
    else Count(jobs, code, tag, n - 1) + if jobs[n - 1].code == code && jobs[n - 1].tag == tag then 1 else 0
  }

  /** The first job of a process, at or after i; past the end if it has none. */
  function Place(jobs: seq<Job>, who: Who, i: nat): (r: nat)
    requires i <= |jobs|
    ensures i <= r <= |jobs| && (r < |jobs| ==> Same(jobs[r].who, who))
    ensures forall j :: i <= j < r ==> !Same(jobs[j].who, who)
    decreases |jobs| - i
  {
    if i < |jobs| && !Same(jobs[i].who, who) then Place(jobs, who, i + 1) else i
  }

  function Refreshed(jobs: seq<Job>, who: Who, now: int): seq<Job> {
    var k := Place(jobs, who, 0);
    if k < |jobs| then jobs[k := jobs[k].(date := now)] else jobs
  }

  function Without(jobs: seq<Job>, k: nat): seq<Job>
    requires k < |jobs|
  {
    jobs[..k] + jobs[k + 1..]
  }

  function Closed(jobs: seq<Job>, who: Who): seq<Job> {
    var k := Place(jobs, who, 0);
    if k < |jobs| then Without(jobs, k) else jobs
  }

  predicate Stale(j: Job, now: int) {
    now - j.date > CHECK_DELTA
  }

  /** The jobs from i on that are not stale. */
  function Kept(jobs: seq<Job>, now: int, i: nat): seq<Job>
    requires i <= |jobs|
    decreases |jobs| - i
  {
    if i == |jobs| then [] else (if Stale(jobs[i], now) then [] else [jobs[i]]) + Kept(jobs, now, i + 1)
  }

  /** The answer to a request under the block found for a name. */
  function Tried(lic: License, jobs: seq<Job>, name: Who, code: nat, now: int): nat {
    match Looked(lic, name, code)
    case None => NOTLIC
    case Some(g) =>
      if g.expires != 0 && now >= g.expires then TIMEXP
      else if g.limited && Count(jobs, g.code, g.link + 1, |jobs|) + 1 > lic.quota(g.link) then USRLIM
      else OK
  }

  /** The first of these names, from i on, under which the request is granted, or the last one. */
  function Another(lic: License, jobs: seq<Job>, others: seq<Who>, code: nat, now: int, i: nat): Who
    requires i < |others|
    decreases |others| - i
  {
    if i + 1 == |others| || Tried(lic, jobs, others[i], code, now) == OK then others[i]
    else Another(lic, jobs, others, code, now, i + 1)
  }

  /** The name under which a request is decided: the caller's if there is a block for it, or else the
      server's own, or else one with another of the server's addresses. */
  function Sponsor(lic: License, jobs: seq<Job>, self: Self, who: Who, code: nat, now: int): Option<Who> {
    if Tried(lic, jobs, who, code, now) != NOTLIC then Some(who)
    else match self
      case Known(own, others) =>
        Some(if Tried(lic, jobs, own, code, now) != NOTLIC || others == [] then own
             else Another(lic, jobs, others, code, now, 0))
      case _ => None
  }

  /** The answer to an open request. A server that cannot resolve its own name answers OK. */
  function Verdict(lic: License, jobs: seq<Job>, self: Self, who: Who, code: nat, now: int): nat {
    if code == SERVER_CODE then SRVREQ
    else match Sponsor(lic, jobs, self, who, code, now)
      case Some(name) => Tried(lic, jobs, name, code, now)
      case None => if self.Unresolved? then OK else UNKNO
  }

  /** The job list once a request has been tried under the block for a name. */
  function Entered(lic: License, jobs: seq<Job>, name: Who, who: Who, code: nat, now: int): seq<Job> {
    if Tried(lic, jobs, name, code, now) != OK || Looked(lic, name, code).None? then jobs
    else
      var g := Looked(lic, name, code).value;
      [Job(who, code, now, if g.limited then g.link + 1 else 0)] + jobs
  }

  function Opened(lic: License, jobs: seq<Job>, self: Self, who: Who, code: nat, now: int): seq<Job> {
    if code == SERVER_CODE then jobs
    else match Sponsor(lic, jobs, self, who, code, now)
      case Some(name) => Entered(lic, jobs, name, who, code, now)
      case None => jobs
  }

  predicate Granted(lic: License, jobs: seq<Job>, name: Who, code: nat, now: int) {
    Tried(lic, jobs, name, code, now) == OK
  }

  // ---- when a request is granted ----

  /** The jobs, of the first n, of a program that fall under the user limit kept in a block. */
  function Counted(jobs: seq<Job>, program: nat, link: nat, n: nat): set<nat>
    requires n <= |jobs|
  {
    set i | 0 <= i < n && jobs[i].code == program && jobs[i].tag == link + 1
  }

  function UsersOf(jobs: seq<Job>, program: nat, link: nat): nat {
    |Counted(jobs, program, link, |jobs|)|
  }

  predicate Expired(g: Grant, now: int) {
    0 < g.expires <= now
  }

  /** The block is not expired, and with one user more the program stays within its limit. */
  predicate Allows(lic: License, jobs: seq<Job>, g: Grant, now: int) {
    !Expired(g, now) && (g.limited ==> UsersOf(jobs, g.code, g.link) < lic.quota(g.link))
  }

  lemma {:induction false} CountIs(jobs: seq<Job>, code: nat, link: nat, n: nat)
    requires n <= |jobs|
    ensures Count(jobs, code, link + 1, n) == |Counted(jobs, code, link, n)|
  {
    if n > 0 {
      CountIs(jobs, code, link, n - 1);
      CountedNext(jobs, code, link, n);
    }
  }

  lemma CountedNext(jobs: seq<Job>, code: nat, link: nat, n: nat)
    requires 0 < n <= |jobs|
    ensures Counted(jobs, code, link, n) == Counted(jobs, code, link, n - 1)
              + (if jobs[n - 1].code == code && jobs[n - 1].tag == link + 1 then {n - 1} else {})
    ensures n - 1 !in Counted(jobs, code, link, n - 1)
  {
  }

  lemma GrantedIs(lic: License, jobs: seq<Job>, name: Who, code: nat, now: int)
    ensures Granted(lic, jobs, name, code, now) <==>
              lic.find(name, code % 256).Some? && Allows(lic, jobs, lic.find(name, code % 256).value, now)
    ensures Tried(lic, jobs, name, code, now) == NOTLIC <==> lic.find(name, code % 256).None?
    ensures Tried(lic, jobs, name, code, now) == TIMEXP <==>
              lic.find(name, code % 256).Some? && Expired(lic.find(name, code % 256).value, now)
  {
    if lic.find(name, code % 256).Some? {
      var g := lic.find(name, code % 256).value;
      CountIs(jobs, g.code, g.link, |jobs|);
    }
  }

  /** There is a block for the name, and it allows one user more. */
  predicate AllowedAs(lic: License, jobs: seq<Job>, name: Who, code: nat, now: int) {
    lic.find(name, code % 256).Some? && Allows(lic, jobs, lic.find(name, code % 256).value, now)
  }

  predicate AllowedByServer(lic: License, jobs: seq<Job>, self: Self, code: nat, now: int)
    requires self.Known?
  {
    if lic.find(self.own, code % 256).Some? then AllowedAs(lic, jobs, self.own, code, now)
    else exists i :: 0 <= i < |self.others| && AllowedAs(lic, jobs, self.others[i], code, now)
  }

  /** When a request is granted: under the caller's own block, and only when it has none, under the
      server's own, and only when there is none either, under any for the server's other addresses;
      or when there is no block for the caller and the server cannot resolve its own name. In that
      last case alone a granted request is not entered in the list. */
  lemma GrantedExactlyWhen(lic: License, jobs: seq<Job>, self: Self, who: Who, code: nat, now: int)
    ensures Verdict(lic, jobs, self, who, code, now) == OK <==>
              && code != SERVER_CODE
              && if lic.find(who, code % 256).Some? then AllowedAs(lic, jobs, who, code, now)
                 else match self
                   case Nameless => false
                   case Unresolved => true
                   case Known(_, _) => AllowedByServer(lic, jobs, self, code, now)
    ensures |Opened(lic, jobs, self, who, code, now)| == |jobs| + 1 <==>
              && Verdict(lic, jobs, self, who, code, now) == OK
              && (lic.find(who, code % 256).Some? || !self.Unresolved?)
    ensures |Opened(lic, jobs, self, who, code, now)| != |jobs| + 1 ==> Opened(lic, jobs, self, who, code, now) == jobs
  {
    GrantedIs(lic, jobs, who, code, now);
    if self.Known? {
      GrantedIs(lic, jobs, self.own, code, now);
      forall i | 0 <= i < |self.others|
        ensures Granted(lic, jobs, self.others[i], code, now) <==> AllowedAs(lic, jobs, self.others[i], code, now)
      {
        GrantedIs(lic, jobs, self.others[i], code, now);
      }
      if self.others != [] {
        AnotherIsGranted(lic, jobs, self.others, code, now, 0);
      }
    }
  }

  /** A request whose own block is expired is told so and not entered; one whose own block has too many
      users is told that. No other block is looked for. */
  lemma OwnBlockDecides(lic: License, jobs: seq<Job>, self: Self, who: Who, code: nat, now: int)
    requires code != SERVER_CODE && lic.find(who, code % 256).Some?
    ensures var g := lic.find(who, code % 256).value;
      && Verdict(lic, jobs, self, who, code, now) ==
           (if Expired(g, now) then TIMEXP else if Allows(lic, jobs, g, now) then OK else USRLIM)
      && Opened(lic, jobs, self, who, code, now) ==
           (if Allows(lic, jobs, g, now) then [Job(who, code, now, if g.limited then g.link + 1 else 0)] + jobs else jobs)
  {
    GrantedIs(lic, jobs, who, code, now);
  }

  /** A job that is entered is the caller's, under a block that is not expired. */
  lemma EnteredUnexpired(lic: License, jobs: seq<Job>, self: Self, who: Who, code: nat, now: int)
    returns (name: Who)
    requires Opened(lic, jobs, self, who, code, now) != jobs
    ensures lic.find(name, code % 256).Some?
    ensures name == who || (self.Known? && (name == self.own || name in self.others))
    ensures var g := lic.find(name, code % 256).value;
      && !Expired(g, now) && Allows(lic, jobs, g, now)
      && Opened(lic, jobs, self, who, code, now) == [Job(who, code, now, if g.limited then g.link + 1 else 0)] + jobs
  {
    name := Sponsor(lic, jobs, self, who, code, now).value;
    GrantedIs(lic, jobs, name, code, now);
    if self.Known? && self.others != [] {
      AnotherIsOne(lic, jobs, self.others, code, now, 0);
    }
  }

  lemma {:induction false} AnotherIsOne(lic: License, jobs: seq<Job>, others: seq<Who>, code: nat, now: int, i: nat)
    requires i < |others|
    ensures Another(lic, jobs, others, code, now, i) in others
    decreases |others| - i
  {
    if i + 1 < |others| && Tried(lic, jobs, others[i], code, now) != OK {
      AnotherIsOne(lic, jobs, others, code, now, i + 1);
    }
  }

  lemma {:induction false} AnotherIsGranted(lic: License, jobs: seq<Job>, others: seq<Who>, code: nat, now: int, i: nat)
    requires i < |others|
    ensures Granted(lic, jobs, Another(lic, jobs, others, code, now, i), code, now) <==>
              exists j :: i <= j < |others| && Granted(lic, jobs, others[j], code, now)
    decreases |others| - i
  {
    if i + 1 < |others| && !Granted(lic, jobs, others[i], code, now) {
      AnotherIsGranted(lic, jobs, others, code, now, i + 1);
    }
  }

  class Server {
    const lic: License
    var jobs: seq<Job>

    constructor (lic: License)
      ensures this.lic == lic && jobs == []
    {
      this.lic, jobs := lic, [];
    }

    method Open(self: Self, who: Who, code: nat, now: int) returns (ret: nat)
      modifies this
      ensures ret == Verdict(lic, old(jobs), self, who, code, now)
      ensures jobs == Opened(lic, old(jobs), self, who, code, now)
    {
      if code == SERVER_CODE {
        return SRVREQ;
      }
      ret := Validate(who, who, code, now);
      if ret == NOTLIC {
        ret := TestMe(self, who, code, now);
      }
    }

    /** Look for a block under a name, and enter the request if the block allows it. */
    method Validate(name: Who, who: Who, code: nat, now: int) returns (ret: nat)
      modifies this
      ensures ret == Tried(lic, old(jobs), name, code, now)
      ensures jobs == Entered(lic, old(jobs), name, who, code, now)
    {
      match Looked(lic, name, code) {
        case None =>
          ret := NOTLIC;
        case Some(g) =>
          if !(g.expires == 0 || now < g.expires) {
            return TIMEXP;
          }
          var fits := CheckUsers(who, code, g, now);
          ret := if fits then OK else USRLIM;
      }
    }

    /** Second attempts, under the server's own names. */
    method TestMe(self: Self, who: Who, code: nat, now: int) returns (ret: nat)
      requires code != SERVER_CODE && Tried(lic, jobs, who, code, now) == NOTLIC
      modifies this
      ensures ret == Verdict(lic, old(jobs), self, who, code, now)
      ensures jobs == Opened(lic, old(jobs), self, who, code, now)
    {
      match self {
        case Nameless => ret := UNKNO;
        case Unresolved => ret := OK;
        case Known(own, others) =>
          ret := Validate(own, who, code, now);
          if ret == NOTLIC {
            ret := TryOthers(others, who, code, now);
          }
      }
    }

    /** Try one name after another until the request is granted. */
    method TryOthers(others: seq<Who>, who: Who, code: nat, now: int) returns (ret: nat)
      modifies this
      ensures others == [] ==> ret == NOTLIC && jobs == old(jobs)
      ensures others != [] ==>
                var name := Another(lic, old(jobs), others, code, now, 0);
                ret == Tried(lic, old(jobs), name, code, now) && jobs == Entered(lic, old(jobs), name, who, code, now)
    {
      ret := NOTLIC;
      for i := 0 to |others|
        invariant jobs == old(jobs) && (i == 0 ==> ret == NOTLIC)
        invariant i > 0 ==> ret == Tried(lic, jobs, others[i - 1], code, now) != OK
        invariant i < |others| ==> Another(lic, jobs, others, code, now, 0) == Another(lic, jobs, others, code, now, i)
        invariant i == |others| > 0 ==> Another(lic, jobs, others, code, now, 0) == others[i - 1]
      {
        ret := Validate(others[i], who, code, now);
        if ret == OK {
          return;
        }
      }
    }

    /** Enter a job, unless the program has as many users as it may. */
    method CheckUsers(who: Who, code: nat, g: Grant, now: int) returns (fits: bool)
      modifies this
      ensures fits <==> (g.limited ==> Count(old(jobs), g.code, g.link + 1, |old(jobs)|) + 1 <= lic.quota(g.link))
      ensures jobs == if fits then [Job(who, code, now, if g.limited then g.link + 1 else 0)] + old(jobs) else old(jobs)
    {
      if g.limited {
        var count := 1;
        for i := 0 to |jobs|
          invariant jobs == old(jobs) && count == 1 + Count(jobs, g.code, g.link + 1, i)
        {
          if jobs[i].code == g.code && jobs[i].tag == g.link + 1 {
            count := count + 1;
          }
        }
        if count > lic.quota(g.link) {
          return false;
        }
      }
      fits := true;
      jobs := [Job(who, code, now, if g.limited then g.link + 1 else 0)] + jobs;
    }

    /** Find the first job of a process. */
    method Find(who: Who) returns (k: nat)
      ensures k == Place(jobs, who, 0)
    {
      k := 0;
      while k < |jobs|
        invariant k <= |jobs| && Place(jobs, who, 0) == Place(jobs, who, k)
      {
        if jobs[k].who.pid == who.pid {
          var same := HostComp(jobs[k].who.host, who.host);
          if same {
            return;
          }
        }
        k := k + 1;
      }
    }

    /** A sign of life: acknowledged only if the process has a job. */
    method Check(who: Who, now: int) returns (acknowledged: bool)
      modifies this
      ensures jobs == Refreshed(old(jobs), who, now)
      ensures acknowledged <==> exists j :: 0 <= j < |old(jobs)| && Same(old(jobs)[j].who, who)
    {
      var k := Find(who);
      acknowledged := k < |jobs|;
      if acknowledged {
        jobs := jobs[k := jobs[k].(date := now)];
      }
    }

    method Close(who: Who)
      modifies this
      ensures jobs == Closed(old(jobs), who)
    {
      var k := Find(who);
      if k < |jobs| {
        jobs := jobs[..k] + jobs[k + 1..];
      }
    }

    /** The periodic purge. */
    method CleanList(now: int)
      modifies this
      ensures jobs == Kept(old(jobs), now, 0)
    {
      var i := 0;
      while i < |jobs|
        invariant i <= |jobs| && Kept(old(jobs), now, 0) == jobs[..i] + Kept(jobs, now, i)
        decreases |jobs| - i
      {
        if now - jobs[i].date > CHECK_DELTA {
          KeptSkips(jobs, now, i);
          jobs := jobs[..i] + jobs[i + 1..];
        } else {
          i := i + 1;
        }
      }
    }
  }

  lemma KeptSkips(jobs: seq<Job>, now: int, i: nat)
    requires i < |jobs| && Stale(jobs[i], now)
    ensures Without(jobs, i)[..i] == jobs[..i] && Kept(Without(jobs, i), now, i) == Kept(jobs, now, i)
  {
    KeptShifts(jobs, now, i, i + 1);
  }

  lemma {:induction false} KeptShifts(jobs: seq<Job>, now: int, k: nat, i: nat)
    requires k < i <= |jobs|
    ensures Kept(Without(jobs, k), now, i - 1) == Kept(jobs, now, i)
    decreases |jobs| - i
  {
    if i < |jobs| {
      KeptShifts(jobs, now, k, i + 1);
    }
  }
}
