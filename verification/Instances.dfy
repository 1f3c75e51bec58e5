/** Reading the AdGuard instances from indexed environment variables, collecting every
    problem found; and exactly which environments are accepted. */
module Instances {
  import opened Ordering
  import opened Rules

  const MAX_INSTANCES := 64

  datatype Variable = Url | Username | Password | Name

  /** ADGUARD_<n>_<variable>; an unset variable reads as "". */
  type Environment = (int, Variable) -> string

  /** url.Parse: the host of a valid absolute URL (scheme and host present), else None. */
  type UrlParser = string -> Option<string>

  datatype Instance = Instance(name: string, url: string, username: string, password: string)

  datatype ConfigError =
    | OrphanData(n: int)
    | AfterGap(n: int)
    | UsernameRequired(n: int)
    | PasswordRequired(n: int)
    | InvalidUrl(n: int)
    | DuplicateName(name: string, first: int, n: int)
    | NoneConfigured

  /** strings.TrimRight(s, "/"). */
  function TrimSlashes(s: string): (r: string)
  {
    if s != [] && s[|s| - 1] == '/' then TrimSlashes(s[..|s| - 1]) else s
  }

  /** Only slashes are cut off the end, and all of them. */
  lemma {:induction false} TrimsSlashes(s: string)
    ensures var r := TrimSlashes(s);
            && |r| <= |s| && r == s[..|r|] && (forall i | |r| <= i < |s| :: s[i] == '/')
            && (r != [] ==> r[|r| - 1] != '/')
  {
    if s != [] && s[|s| - 1] == '/' {
      var t := s[..|s| - 1];
      TrimsSlashes(t);
      var r := TrimSlashes(t);
      forall i | |r| <= i < |s| ensures s[i] == '/' {
        if i < |t| {
          assert t[i] == '/';
        }
      }
    }
  }

  /** What is set at one index; `host` is that of a valid absolute URL. */
  datatype Setting = Setting(url: string, host: Option<string>, username: string, password: string, name: string)
  {
    predicate Usable() { url != "" && host.Some? }

    /** A whole instance is described. */
    predicate Complete() { Usable() && username != "" && password != "" }

    predicate Blank() { url == "" && username == "" && password == "" && name == "" }

    /** The name given, or the URL's host. */
    function EffectiveName(): (r: string) { if name == "" && host.Some? then host.value else name }

    function Described(): (r: Instance) { Instance(EffectiveName(), TrimSlashes(url), username, password) }
  }

  type Settings = int -> Setting

  function Read(env: Environment, parse: UrlParser): Settings
  {
    (n: int) =>
      var url := TrimSpace(env(n, Url));
      Setting(url, parse(url), env(n, Username), env(n, Password), TrimSpace(env(n, Name)))
  }

  // ---------------------------------------------------------------- what is accepted

  /** Indices 1..k describe whole instances with distinct names; beyond them, up to `n`,
      nothing is set. */
  ghost predicate Describes(at: Settings, k: int, n: int)
  {
    && 0 <= k <= n
    && (forall i | 1 <= i <= k :: at(i).Complete())
    && (forall i, j | 1 <= i < j <= k :: at(i).EffectiveName() != at(j).EffectiveName())
    && (forall i | k < i <= n :: at(i).Blank())
  }

  lemma {:induction false} DescribesFull(at: Settings, n: nat)
    requires n > 0
    ensures Describes(at, n, n)
       <==> Describes(at, n - 1, n - 1) && at(n).Complete()
            && forall i | 1 <= i < n :: at(i).EffectiveName() != at(n).EffectiveName()
  {
  }

  lemma {:induction false} DescribesBlank(at: Settings, k: nat, n: nat)
    requires n > 0 && k < n
    ensures Describes(at, k, n) <==> Describes(at, k, n - 1) && at(n).Blank()
  {
  }

  // ---------------------------------------------------------------- what is reported

  /** An earlier index has no URL. */
  predicate Gap(at: Settings, n: int)
  {
    exists m | 1 <= m < n :: at(m).url == ""
  }

  /** The names taken by the indices 1..n, each with the first index to take it. */
  function Taken(at: Settings, n: nat): (m: map<string, nat>)
  {
    if n == 0 then map[]
    else
      var m, name := Taken(at, n - 1), at(n).EffectiveName();
      if at(n).Usable() && name !in m then m[name := n] else m
  }

  lemma {:induction false} TakenFirst(at: Settings, name: string, n: nat)
    ensures var m := Taken(at, n);
            if name !in m then forall i | 1 <= i <= n && at(i).Usable() :: at(i).EffectiveName() != name
            else && 1 <= m[name] <= n && at(m[name]).Usable() && at(m[name]).EffectiveName() == name
                 && forall i | 1 <= i < m[name] && at(i).Usable() :: at(i).EffectiveName() != name
  {
    if n > 0 {
      TakenFirst(at, name, n - 1);
    }
  }

  /** What an index that has a URL lacks. */
  function Lacking(at: Settings, n: int): (r: seq<ConfigError>)
  {
    (if Gap(at, n) then [AfterGap(n)] else [])
    + (if at(n).username == "" then [UsernameRequired(n)] else [])
    + (if at(n).password == "" then [PasswordRequired(n)] else [])
  }

  /** The problems of one index, against the indices before it. */
  function ProblemsAt(at: Settings, n: nat): (r: seq<ConfigError>)
    requires n > 0
  {
    var s, taken := at(n), Taken(at, n - 1);
    if s.url == "" then (if s.Blank() then [] else [OrphanData(n)])
    else if s.host.None? then Lacking(at, n) + [InvalidUrl(n)]
    else Lacking(at, n) + (if s.EffectiveName() in taken then [DuplicateName(s.EffectiveName(), taken[s.EffectiveName()], n)] else [])
  }

  /** All problems of the indices 1..n. */
  function Problems(at: Settings, n: nat): (r: seq<ConfigError>)
  {
    if n == 0 then [] else Problems(at, n - 1) + ProblemsAt(at, n)
  }

  /** The instances found at the indices 1..n, problems or not. */
  function Found(at: Settings, n: nat): (r: seq<Instance>)
  {
    if n == 0 then [] else Found(at, n - 1) + (if at(n).Usable() then [at(n).Described()] else [])
  }

  /** All that a scan of the indices 1..n reports. */
  function Report(at: Settings, n: nat): (r: seq<ConfigError>)
  {
    var errs := Problems(at, n);
    if errs == [] && Found(at, n) == [] then [NoneConfigured] else errs
  }

  lemma {:induction false} FoundBound(at: Settings, n: nat)
    ensures |Found(at, n)| <= n
  {
    if n > 0 {
      FoundBound(at, n - 1);
    }
  }

  lemma {:induction false} DescribesFound(at: Settings, k: nat, n: nat)
    requires Describes(at, k, n)
    ensures |Found(at, n)| == k && forall i | 0 <= i < k :: Found(at, n)[i] == at(i + 1).Described()
  {
    if n > 0 {
      DescribesFound(at, if k < n then k else n - 1, n - 1);
      assert k < n ==> at(n).Blank();
      assert k == n ==> at(n).Complete();
    }
  }

  /** An index adds no problem exactly when nothing is set there, or a whole instance, no
      index before it is empty, and none took its name. */
  lemma {:induction false} ProblemsAtIff(at: Settings, n: nat)
    requires n > 0
    ensures ProblemsAt(at, n) == []
       <==> at(n).Blank() || (at(n).Complete() && !Gap(at, n) && at(n).EffectiveName() !in Taken(at, n - 1))
  {
    var lacking := Lacking(at, n);
    assert lacking == [] <==> !Gap(at, n) && at(n).username != "" && at(n).password != "";
  }

  /** After a run of `n` whole instances nothing is missing, and the names taken are theirs. */
  lemma {:induction false} AfterFullRun(at: Settings, n: nat, name: string)
    requires Describes(at, n, n)
    ensures !Gap(at, n + 1)
    ensures name !in Taken(at, n) <==> forall i | 1 <= i <= n :: at(i).EffectiveName() != name
  {
    TakenFirst(at, name, n);
    forall i | 1 <= i <= n ensures at(i).Usable() {
      assert at(i).Complete();
    }
  }

  lemma {:induction false} RunExtends(at: Settings, n: nat)
    requires n > 0 && Describes(at, n - 1, n - 1) && at(n).Usable()
    ensures ProblemsAt(at, n) == [] <==> Describes(at, n, n)
  {
    ProblemsAtIff(at, n);
    AfterFullRun(at, n - 1, at(n).EffectiveName());
    DescribesFull(at, n);
  }

  lemma {:induction false} RunBroken(at: Settings, k: nat, n: nat)
    requires k + 1 < n && Describes(at, k, n - 1) && at(n).Usable()
    ensures ProblemsAt(at, n) != [] && !Describes(at, k + 1, n)
  {
    assert at(n - 1).Blank();
    assert Gap(at, n);
    ProblemsAtIff(at, n);
  }

  lemma {:induction false} RunOver(at: Settings, k: nat, n: nat)
    requires n > 0 && Describes(at, k, n - 1) && !at(n).Usable()
    ensures ProblemsAt(at, n) == [] <==> Describes(at, k, n)
  {
    ProblemsAtIff(at, n);
    DescribesBlank(at, k, n);
  }

  /** The run of instances goes on at an index, or has ended and stays so. */
  lemma {:induction false} RunGoesOn(at: Settings, k: nat, n: nat)
    requires n > 0 && Describes(at, k, n - 1)
    ensures ProblemsAt(at, n) == [] <==> Describes(at, if at(n).Usable() then k + 1 else k, n)
  {
    if !at(n).Usable() {
      RunOver(at, k, n);
    } else if k == n - 1 {
      RunExtends(at, n);
    } else {
      RunBroken(at, k, n);
    }
  }

  lemma {:induction false} RunBefore(at: Settings, k: nat, n: nat)
    requires n > 0 && k <= n - 1
    ensures at(n).Usable() && Describes(at, k + 1, n) ==> Describes(at, k, n - 1)
    ensures !at(n).Usable() && Describes(at, k, n) ==> Describes(at, k, n - 1)
  {
    if at(n).Usable() && Describes(at, k + 1, n) {
      assert k + 1 < n ==> at(n).Blank();
    }
  }

  lemma {:induction false} RunIff(at: Settings, k: nat, n: nat)
    requires n > 0 && k <= n - 1
    ensures Describes(at, k, n - 1) && ProblemsAt(at, n) == []
       <==> Describes(at, if at(n).Usable() then k + 1 else k, n)
  {
    RunBefore(at, k, n);
    if Describes(at, k, n - 1) {
      RunGoesOn(at, k, n);
    }
  }

  lemma {:induction false} ProblemsNil(at: Settings, n: nat)
    requires n > 0
    ensures Problems(at, n) == [] <==> Problems(at, n - 1) == [] && ProblemsAt(at, n) == []
    ensures |Found(at, n)| == |Found(at, n - 1)| + if at(n).Usable() then 1 else 0
  {
  }

  /** No problem is reported exactly when the settings describe a run of instances. */
  lemma {:induction false} ProblemFreeIff(at: Settings, n: nat)
    ensures Problems(at, n) == [] <==> Describes(at, |Found(at, n)|, n)
  {
    if n > 0 {
      var k := |Found(at, n - 1)|;
      FoundBound(at, n - 1);
      ProblemFreeIff(at, n - 1);
      RunIff(at, k, n);
      ProblemsNil(at, n);
    }
  }

  /** Nothing is reported exactly when, for some k >= 1, the indices 1..k describe whole
      instances with distinct names and nothing is set beyond them; those k, in index order,
      are then the instances found, and their names are distinct. */
  lemma {:induction false} AcceptedIff(at: Settings, n: nat)
    ensures Report(at, n) == [] <==> exists k: nat :: 1 <= k && Describes(at, k, n)
    ensures forall k: nat | Describes(at, k, n) ::
              |Found(at, n)| == k && forall i | 0 <= i < k :: Found(at, n)[i] == at(i + 1).Described()
    ensures var found := Found(at, n);
            Report(at, n) == [] ==> forall i, j | 0 <= i < j < |found| :: found[i].name != found[j].name
  {
    ProblemFreeIff(at, n);
    forall k: nat | Describes(at, k, n)
      ensures |Found(at, n)| == k && forall i | 0 <= i < k :: Found(at, n)[i] == at(i + 1).Described()
    {
      DescribesFound(at, k, n);
    }
  }

  // ---------------------------------------------------------------- what a report holds

  lemma {:induction false} ProblemIndices(at: Settings, n: nat, e: ConfigError)
    requires n > 0
    ensures e in ProblemsAt(at, n) ==> !e.NoneConfigured? && e.n == n
  {
  }

  lemma {:induction false} JoinedMember(own: int -> seq<ConfigError>, upTo: int -> seq<ConfigError>, n: nat, e: ConfigError)
    requires upTo(0) == [] && forall k | 0 < k <= n :: upTo(k) == upTo(k - 1) + own(k)
    requires forall k, x | 0 < k <= n && x in own(k) :: !x.NoneConfigured? && x.n == k
    ensures e in upTo(n) <==> !e.NoneConfigured? && 1 <= e.n <= n && e in own(e.n)
  {
    if n > 0 {
      JoinedMember(own, upTo, n - 1, e);
      assert e in upTo(n) <==> e in upTo(n - 1) || e in own(n);
    }
  }

  lemma {:induction false} ProblemsIndexed(at: Settings, own: int -> seq<ConfigError>, n: nat)
    requires forall k | 0 < k <= n :: own(k) == ProblemsAt(at, k)
    ensures forall k, x | 0 < k <= n && x in own(k) :: !x.NoneConfigured? && x.n == k
  {
    forall k, x | 0 < k <= n && x in own(k) ensures !x.NoneConfigured? && x.n == k {
      ProblemIndices(at, k, x);
    }
  }

  lemma {:induction false} ProblemOfIndex(at: Settings, n: nat, e: ConfigError)
    ensures e in Problems(at, n) <==> !e.NoneConfigured? && 1 <= e.n <= n && e in ProblemsAt(at, e.n)
  {
    var own := (k: int) => if k > 0 then ProblemsAt(at, k) else [];
    var upTo := (k: int) => if k >= 0 then Problems(at, k) else [];
    assert forall k | 0 < k <= n :: upTo(k) == upTo(k - 1) + own(k);
    ProblemsIndexed(at, own, n);
    JoinedMember(own, upTo, n, e);
  }

  lemma {:induction false} FoundIndex(at: Settings, n: nat, inst: Instance)
    ensures inst in Found(at, n) <==> exists i | 1 <= i <= n :: at(i).Usable() && inst == at(i).Described()
  {
    if n > 0 {
      FoundIndex(at, n - 1, inst);
    }
  }

  /** A duplicate is reported with the first index that has the name. */
  lemma {:induction false} DuplicateIff(at: Settings, n: nat, name: string, first: int)
    requires n > 0
    ensures DuplicateName(name, first, n) in ProblemsAt(at, n)
       <==> at(n).Usable() && at(n).EffectiveName() == name
            && 1 <= first < n && at(first).Usable() && at(first).EffectiveName() == name
            && forall i | 1 <= i < first && at(i).Usable() :: at(i).EffectiveName() != name
  {
    TakenFirst(at, name, n - 1);
  }

  lemma {:induction false} NothingConfigured(at: Settings, n: nat)
    ensures NoneConfigured in Report(at, n) <==> forall i | 1 <= i <= n :: at(i).Blank()
  {
    ProblemOfIndex(at, n, NoneConfigured);
    ProblemFreeIff(at, n);
    if forall i | 1 <= i <= n :: at(i).Blank() {
      assert Describes(at, 0, n);
      DescribesFound(at, 0, n);
    }
  }

  lemma {:induction false} ReportedIndex(at: Settings, n: nat, e: ConfigError)
    requires !e.NoneConfigured?
    ensures e in Report(at, n) <==> 1 <= e.n <= n && e in ProblemsAt(at, e.n)
  {
    ProblemOfIndex(at, n, e);
  }

  // ---------------------------------------------------------------- the scan

  lemma {:induction false} GapStep(at: Settings, n: nat)
    requires n > 0
    ensures Gap(at, n + 1) <==> Gap(at, n) || at(n).url == ""
  {
  }

  /** One index of the scan: the instance it adds, if any, and its problems. */
  method ScanIndex(at: Settings, n: nat, seenNames: map<string, nat>, runEnded: bool)
    returns (instances: seq<Instance>, errs: seq<ConfigError>, seenNames': map<string, nat>, runEnded': bool)
    requires n > 0 && seenNames == Taken(at, n - 1) && runEnded == Gap(at, n)
    ensures errs == ProblemsAt(at, n)
    ensures instances == if at(n).Usable() then [at(n).Described()] else []
    ensures seenNames' == Taken(at, n) && runEnded' == Gap(at, n + 1)
  {
    instances, errs, seenNames', runEnded' := [], [], seenNames, runEnded;
    GapStep(at, n);
    var s := at(n);
    if s.url == "" {
      runEnded' := true;
      if s.username != "" || s.password != "" || s.name != "" {
        errs := errs + [OrphanData(n)];
      }
      return;
    }
    if runEnded {
      errs := errs + [AfterGap(n)];
    }
    if s.username == "" {
      errs := errs + [UsernameRequired(n)];
    }
    if s.password == "" {
      errs := errs + [PasswordRequired(n)];
    }
    assert errs == Lacking(at, n);
    if s.host.None? {
      errs := errs + [InvalidUrl(n)];
      return;
    }
    var name := s.name;
    if name == "" {
      name := s.host.value;
    }
    if name in seenNames {
      errs := errs + [DuplicateName(name, seenNames[name], n)];
    } else {
      seenNames' := seenNames[name := n];
    }
    instances := instances + [Instance(name, TrimSlashes(s.url), s.username, s.password)];
  }

  method Scan(at: Settings, maxInstances: nat) returns (instances: seq<Instance>, errs: seq<ConfigError>)
    ensures instances == Found(at, maxInstances)
    ensures errs == Report(at, maxInstances)
  {
    instances, errs := [], [];
    var seenNames: map<string, nat> := map[];
    var runEnded := false;
    for n := 1 to maxInstances + 1
      invariant instances == Found(at, n - 1) && errs == Problems(at, n - 1)
      invariant seenNames == Taken(at, n - 1) && runEnded == Gap(at, n)
    {
      var found, problems, seen, ended := ScanIndex(at, n, seenNames, runEnded);
      instances, errs, seenNames, runEnded := instances + found, errs + problems, seen, ended;
    }
    if |instances| == 0 && |errs| == 0 {
      errs := errs + [NoneConfigured];
    }
  }

  // ---------------------------------------------------------------- the environment

  /** Index `i` has a valid URL and goes by `name`: the one set, or else the URL's host. */
  predicate NamedAt(env: Environment, parse: UrlParser, i: int, name: string)
  {
    && TrimSpace(env(i, Url)) != "" && parse(TrimSpace(env(i, Url))).Some?
    && name == if TrimSpace(env(i, Name)) != "" then TrimSpace(env(i, Name)) else parse(TrimSpace(env(i, Url))).value
  }

  /** No index before `first` goes by its name. */
  ghost predicate FirstNamed(env: Environment, parse: UrlParser, first: int, name: string)
  {
    NamedAt(env, parse, first, name) && forall j | 1 <= j < first :: !NamedAt(env, parse, j, name)
  }

  /** The variables of index `i` describe the instance. */
  predicate DescribedBy(env: Environment, parse: UrlParser, i: int, inst: Instance)
  {
    && NamedAt(env, parse, i, inst.name) && inst.url == TrimSlashes(TrimSpace(env(i, Url)))
    && inst.username == env(i, Username) && inst.password == env(i, Password)
  }

  /** Nothing is set at index `i`. */
  predicate UnsetAt(env: Environment, i: int)
  {
    TrimSpace(env(i, Url)) == "" && env(i, Username) == "" && env(i, Password) == "" && TrimSpace(env(i, Name)) == ""
  }

  /** An index before `i` has no URL. */
  ghost predicate GapBefore(env: Environment, i: int)
  {
    exists j | 1 <= j < i :: TrimSpace(env(j, Url)) == ""
  }

  lemma {:induction false} GapIff(env: Environment, parse: UrlParser, i: int)
    ensures Gap(Read(env, parse), i) <==> GapBefore(env, i)
  {
    var at := Read(env, parse);
    forall j | 1 <= j < i ensures at(j).url == TrimSpace(env(j, Url)) {
    }
  }

  lemma {:induction false} NothingFound(env: Environment, parse: UrlParser, n: nat, errs: seq<ConfigError>)
    requires errs == Report(Read(env, parse), n)
    ensures NoneConfigured in errs <==> forall i | 1 <= i <= n :: UnsetAt(env, i)
  {
    var at := Read(env, parse);
    NothingConfigured(at, n);
    forall i ensures UnsetAt(env, i) <==> at(i).Blank() {
    }
  }

  lemma {:induction false} UsernamesMissing(env: Environment, parse: UrlParser, n: nat, errs: seq<ConfigError>)
    requires errs == Report(Read(env, parse), n)
    ensures forall i {:trigger UsernameRequired(i)} :: UsernameRequired(i) in errs <==>
              1 <= i <= n && TrimSpace(env(i, Url)) != "" && env(i, Username) == ""
  {
    var at := Read(env, parse);
    forall i ensures UsernameRequired(i) in errs <==> 1 <= i <= n && at(i).url != "" && at(i).username == "" {
      ReportedIndex(at, n, UsernameRequired(i));
    }
  }

  lemma {:induction false} PasswordsMissing(env: Environment, parse: UrlParser, n: nat, errs: seq<ConfigError>)
    requires errs == Report(Read(env, parse), n)
    ensures forall i {:trigger PasswordRequired(i)} :: PasswordRequired(i) in errs <==>
              1 <= i <= n && TrimSpace(env(i, Url)) != "" && env(i, Password) == ""
  {
    var at := Read(env, parse);
    forall i ensures PasswordRequired(i) in errs <==> 1 <= i <= n && at(i).url != "" && at(i).password == "" {
      ReportedIndex(at, n, PasswordRequired(i));
    }
  }

  lemma {:induction false} UrlsInvalid(env: Environment, parse: UrlParser, n: nat, errs: seq<ConfigError>)
    requires errs == Report(Read(env, parse), n)
    ensures forall i {:trigger InvalidUrl(i)} :: InvalidUrl(i) in errs <==>
              1 <= i <= n && TrimSpace(env(i, Url)) != "" && parse(TrimSpace(env(i, Url))).None?
  {
    var at := Read(env, parse);
    forall i ensures InvalidUrl(i) in errs <==> 1 <= i <= n && at(i).url != "" && at(i).host.None? {
      ReportedIndex(at, n, InvalidUrl(i));
    }
  }

  lemma {:induction false} OrphansFound(env: Environment, parse: UrlParser, n: nat, errs: seq<ConfigError>)
    requires errs == Report(Read(env, parse), n)
    ensures forall i {:trigger OrphanData(i)} :: OrphanData(i) in errs <==>
              1 <= i <= n && TrimSpace(env(i, Url)) == ""
              && (env(i, Username) != "" || env(i, Password) != "" || TrimSpace(env(i, Name)) != "")
  {
    var at := Read(env, parse);
    forall i ensures OrphanData(i) in errs <==> 1 <= i <= n && at(i).url == "" && !at(i).Blank() {
      ReportedIndex(at, n, OrphanData(i));
    }
  }

  lemma {:induction false} GapReported(at: Settings, i: nat)
    requires i > 0
    ensures AfterGap(i) in ProblemsAt(at, i) <==> at(i).url != "" && Gap(at, i)
  {
  }

  lemma {:induction false} GapsFound(env: Environment, parse: UrlParser, n: nat, errs: seq<ConfigError>)
    requires errs == Report(Read(env, parse), n)
    ensures forall i {:trigger AfterGap(i)} :: AfterGap(i) in errs <==>
              1 <= i <= n && TrimSpace(env(i, Url)) != "" && GapBefore(env, i)
  {
    var at := Read(env, parse);
    forall i ensures AfterGap(i) in errs <==> 1 <= i <= n && at(i).url != "" && Gap(at, i) {
      ReportedIndex(at, n, AfterGap(i));
      if 1 <= i <= n {
        GapReported(at, i);
      }
    }
    forall i ensures Gap(at, i) <==> GapBefore(env, i) {
      GapIff(env, parse, i);
    }
  }

  lemma {:induction false} DuplicatesFound(env: Environment, parse: UrlParser, n: nat, errs: seq<ConfigError>)
    requires errs == Report(Read(env, parse), n)
    ensures forall name, first, i {:trigger DuplicateName(name, first, i)} :: DuplicateName(name, first, i) in errs <==>
              && 1 <= first < i <= n && NamedAt(env, parse, i, name) && FirstNamed(env, parse, first, name)
  {
    var at := Read(env, parse);
    forall name, first, i
      ensures DuplicateName(name, first, i) in errs <==>
                && 1 <= first < i <= n && NamedAt(env, parse, i, name) && FirstNamed(env, parse, first, name)
    {
      ReportedIndex(at, n, DuplicateName(name, first, i));
      if 1 <= i <= n {
        DuplicateIff(at, i, name, first);
        forall j ensures NamedAt(env, parse, j, name) <==> at(j).Usable() && at(j).EffectiveName() == name {
        }
      }
    }
  }

  lemma {:induction false} DescribedAt(env: Environment, parse: UrlParser, i: int, inst: Instance)
    ensures var s := Read(env, parse)(i);
            s.Usable() && inst == s.Described() <==> DescribedBy(env, parse, i, inst)
  {
  }

  lemma {:induction false} FoundSpelled(env: Environment, parse: UrlParser, n: nat, instances: seq<Instance>)
    requires instances == Found(Read(env, parse), n)
    ensures forall inst :: inst in instances <==> exists i | 1 <= i <= n :: DescribedBy(env, parse, i, inst)
  {
    var at := Read(env, parse);
    forall inst ensures inst in instances <==> exists i | 1 <= i <= n :: DescribedBy(env, parse, i, inst) {
      FoundIndex(at, n, inst);
      forall i ensures at(i).Usable() && inst == at(i).Described() <==> DescribedBy(env, parse, i, inst) {
        DescribedAt(env, parse, i, inst);
      }
    }
  }

  lemma {:induction false} AcceptedSpelled(env: Environment, parse: UrlParser, n: nat, instances: seq<Instance>)
    requires instances == Found(Read(env, parse), n)
    ensures Report(Read(env, parse), n) == [] ==>
              instances != [] && forall i | 0 <= i < |instances| :: DescribedBy(env, parse, i + 1, instances[i])
  {
    var at := Read(env, parse);
    AcceptedIff(at, n);
    if Report(at, n) == [] {
      var k: nat :| 1 <= k && Describes(at, k, n);
      forall i | 0 <= i < |instances| ensures DescribedBy(env, parse, i + 1, instances[i]) {
        assert at(i + 1).Complete();
        DescribedAt(env, parse, i + 1, instances[i]);
      }
    }
  }

  /** All problems and all instances of the variables with indices 1 to MAX_INSTANCES. */
  method LoadInstances(env: Environment, parse: UrlParser) returns (instances: seq<Instance>, errs: seq<ConfigError>)
    ensures instances == Found(Read(env, parse), MAX_INSTANCES)
    ensures errs == Report(Read(env, parse), MAX_INSTANCES)
    ensures forall i {:trigger UsernameRequired(i)} :: UsernameRequired(i) in errs <==>
              1 <= i <= MAX_INSTANCES && TrimSpace(env(i, Url)) != "" && env(i, Username) == ""
    ensures forall i {:trigger PasswordRequired(i)} :: PasswordRequired(i) in errs <==>
              1 <= i <= MAX_INSTANCES && TrimSpace(env(i, Url)) != "" && env(i, Password) == ""
    ensures forall i {:trigger InvalidUrl(i)} :: InvalidUrl(i) in errs <==>
              1 <= i <= MAX_INSTANCES && TrimSpace(env(i, Url)) != "" && parse(TrimSpace(env(i, Url))).None?
    ensures forall i {:trigger OrphanData(i)} :: OrphanData(i) in errs <==>
              1 <= i <= MAX_INSTANCES && TrimSpace(env(i, Url)) == ""
              && (env(i, Username) != "" || env(i, Password) != "" || TrimSpace(env(i, Name)) != "")
    ensures forall i {:trigger AfterGap(i)} :: AfterGap(i) in errs <==>
              1 <= i <= MAX_INSTANCES && TrimSpace(env(i, Url)) != "" && GapBefore(env, i)
    ensures forall name, first, i {:trigger DuplicateName(name, first, i)} :: DuplicateName(name, first, i) in errs <==>
              && 1 <= first < i <= MAX_INSTANCES && NamedAt(env, parse, i, name) && FirstNamed(env, parse, first, name)
    ensures NoneConfigured in errs <==> forall i | 1 <= i <= MAX_INSTANCES :: UnsetAt(env, i)
    ensures forall inst :: inst in instances <==> exists i | 1 <= i <= MAX_INSTANCES :: DescribedBy(env, parse, i, inst)
    ensures errs == [] ==> instances != [] && forall i | 0 <= i < |instances| :: DescribedBy(env, parse, i + 1, instances[i])
  {
    instances, errs := Scan(Read(env, parse), MAX_INSTANCES);
    UsernamesMissing(env, parse, MAX_INSTANCES, errs);
    PasswordsMissing(env, parse, MAX_INSTANCES, errs);
    UrlsInvalid(env, parse, MAX_INSTANCES, errs);
    OrphansFound(env, parse, MAX_INSTANCES, errs);
    GapsFound(env, parse, MAX_INSTANCES, errs);
    DuplicatesFound(env, parse, MAX_INSTANCES, errs);
    NothingFound(env, parse, MAX_INSTANCES, errs);
    FoundSpelled(env, parse, MAX_INSTANCES, instances);
    AcceptedSpelled(env, parse, MAX_INSTANCES, instances);
  }
}
