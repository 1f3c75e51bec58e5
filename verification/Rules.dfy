/** Blocking and unblocking one domain by editing an instance's custom filtering rules. */
module Rules {
  import opened Ordering

  // ---------------------------------------------------------------- trimming

  /** unicode.IsSpace. */
  predicate IsSpace(c: char)
  {
    || c in {'\t', '\n', '\U{000B}', '\U{000C}', '\r', ' ', '\U{0085}', '\U{00A0}', '\U{1680}'}
    || '\U{2000}' <= c <= '\U{200A}'
    || c in {'\U{2028}', '\U{2029}', '\U{202F}', '\U{205F}', '\U{3000}'}
  }

  function TrimLeft(s: string): (r: string)
  {
    if s != [] && IsSpace(s[0]) then TrimLeft(s[1..]) else s
  }

  function TrimRight(s: string): (r: string)
  {
    if s != [] && IsSpace(s[|s| - 1]) then TrimRight(s[..|s| - 1]) else s
  }

  /** strings.TrimSpace. */
  function TrimSpace(s: string): (r: string)
  {
    TrimRight(TrimLeft(s))
  }

  lemma {:induction false} TrimsRight(s: string) returns (b: string)
    ensures s == TrimRight(s) + b && (forall c | c in b :: IsSpace(c))
    ensures TrimRight(s) != [] ==> !IsSpace(TrimRight(s)[|TrimRight(s)| - 1])
  {
    b := [];
    if s != [] && IsSpace(s[|s| - 1]) {
      b := TrimsRight(s[..|s| - 1]);
      b := b + [s[|s| - 1]];
      assert s == s[..|s| - 1] + [s[|s| - 1]];
    }
  }

  lemma {:induction false} TrimsLeft(s: string) returns (a: string)
    ensures s == a + TrimLeft(s) && (forall c | c in a :: IsSpace(c))
    ensures TrimLeft(s) != [] ==> !IsSpace(TrimLeft(s)[0])
  {
    a := [];
    if s != [] && IsSpace(s[0]) {
      a := TrimsLeft(s[1..]);
      a := [s[0]] + a;
      assert s == [s[0]] + s[1..];
    }
  }

  /** What is trimmed is the white space at both ends, all of it and nothing else. */
  lemma {:induction false} TrimsBothEnds(s: string) returns (a: string, b: string)
    ensures s == a + TrimSpace(s) + b && forall c | c in a + b :: IsSpace(c)
    ensures var t := TrimSpace(s); t != [] ==> !IsSpace(t[0]) && !IsSpace(t[|t| - 1])
  {
    a := TrimsLeft(s);
    b := TrimsRight(TrimLeft(s));
    var t := TrimSpace(s);
    assert t != [] ==> TrimLeft(s)[0] == t[0];
    assert a + (t + b) == a + t + b;
  }

  // ---------------------------------------------------------------- rules

  function BlockRule(domain: string): (r: string)
  {
    "||" + domain + "^"
  }

  function AllowRule(domain: string): (r: string)
  {
    "@@||" + domain + "^"
  }

  datatype Action = Action(domain: string, block: bool)
  {
    /** The canonical rule that expresses the action. */
    function Rule(): (r: string)
    {
      if block then BlockRule(domain) else AllowRule(domain)
    }
  }

  /** The rule is, but for surrounding space, a canonical rule of the domain. */
  predicate Concerns(rule: string, domain: string)
  {
    TrimSpace(rule) == BlockRule(domain) || TrimSpace(rule) == AllowRule(domain)
  }

  function Unrelated(domain: string): string -> bool
  {
    (rule: string) => !Concerns(rule, domain)
  }

  function Edited(current: seq<string>, a: Action): (r: seq<string>)
  {
    Keep(current, Unrelated(a.domain)) + [a.Rule()]
  }

  method MergeDomainRule(current: seq<string>, domain: string, block: bool) returns (out: seq<string>)
    ensures out == Edited(current, Action(domain, block))
    ensures |out| > 0 && out[|out| - 1] == if block then "||" + domain + "^" else "@@||" + domain + "^"
    ensures forall r :: r in out[..|out| - 1] <==>
              r in current && TrimSpace(r) != "||" + domain + "^" && TrimSpace(r) != "@@||" + domain + "^"
  {
    var want, opposing := AllowRule(domain), BlockRule(domain);
    if block {
      want, opposing := BlockRule(domain), AllowRule(domain);
    }
    out := [];
    for i := 0 to |current|
      invariant out + Keep(current[i..], Unrelated(domain)) == Keep(current, Unrelated(domain))
    {
      KeepStep(out, current, i, Unrelated(domain));
      var trimmed := TrimSpace(current[i]);
      if trimmed == want || trimmed == opposing {
        continue;
      }
      out := out + [current[i]];
    }
    out := out + [want];
    assert out[..|out| - 1] == Keep(current, Unrelated(domain));
  }

  /** The rule list an instance keeps. */
  class RuleStore {
    var rules: seq<string>

    constructor ()
      ensures rules == []
    {
      rules := [];
    }

    method Get() returns (r: seq<string>)
      ensures r == rules
    {
      r := rules;
    }

    method Set(r: seq<string>)
      modifies this
      ensures rules == r
    {
      rules := r;
    }

    /** Read the rules, edit them, write them back; `readOk` and `writeOk` say whether the
        instance accepts the two requests. */
    method SetDomainBlock(domain: string, block: bool, readOk: bool, writeOk: bool) returns (ok: bool)
      modifies this
      ensures ok == (readOk && writeOk)
      ensures rules == if ok then Edited(old(rules), Action(domain, block)) else old(rules)
    {
      if !readOk {
        return false;
      }
      var current := Get();
      var edited := MergeDomainRule(current, domain, block);
      if !writeOk {
        return false;
      }
      Set(edited);
      return true;
    }
  }

  // ---------------------------------------------------------------- histories

  /** The list after a sequence of edits. */
  function AfterEdits(current: seq<string>, history: seq<Action>): (r: seq<string>)
  {
    if history == [] then current
    else Edited(AfterEdits(current, history[..|history| - 1]), history[|history| - 1])
  }

  predicate Touched(history: seq<Action>, domain: string)
  {
    exists i :: 0 <= i < |history| && history[i].domain == domain
  }

  /** The original rules that concern no touched domain. */
  function Untouched(history: seq<Action>): string -> bool
  {
    (rule: string) => forall i | 0 <= i < |history| :: !Concerns(rule, history[i].domain)
  }

  /** The rule of a history's first action, unless its domain is touched again. */
  function FirstAction(a: Action, later: seq<Action>): (r: seq<string>)
  {
    if Touched(later, a.domain) then [] else [a.Rule()]
  }

  /** One rule per touched domain, in order of last touch, expressing its last action. */
  function LastActions(history: seq<Action>): (r: seq<string>)
  {
    if history == [] then []
    else FirstAction(history[0], history[1..]) + LastActions(history[1..])
  }

  function ClosedForm(current: seq<string>, history: seq<Action>): (r: seq<string>)
  {
    Keep(current, Untouched(history)) + LastActions(history)
  }

  lemma {:induction false} TrimKeepsRule(a: Action)
    ensures TrimSpace(a.Rule()) == a.Rule()
  {
    var r := a.Rule();
    assert r[0] in {'|', '@'} && r[|r| - 1] == '^';
  }

  /** Canonical rules of two actions concern each other only when the domains are the same. */
  lemma {:induction false} ConcernsOwnDomain(a: Action, domain: string)
    ensures Concerns(a.Rule(), domain) <==> a.domain == domain
  {
    TrimKeepsRule(a);
    var block, allow := BlockRule(domain), AllowRule(domain);
    assert block[0] == '|' && allow[0] == '@';
    assert BlockRule(a.domain)[0] == '|' && AllowRule(a.domain)[0] == '@';
    assert BlockRule(a.domain)[2..|a.domain| + 2] == a.domain && AllowRule(a.domain)[4..|a.domain| + 4] == a.domain;
    assert |block| == |domain| + 3 && |allow| == |domain| + 5;
    assert block[2..|domain| + 2] == domain && allow[4..|domain| + 4] == domain;
  }

  lemma {:induction false} LastActionsExtend(history: seq<Action>, a: Action)
    ensures LastActions(history + [a]) == Keep(LastActions(history), Unrelated(a.domain)) + [a.Rule()]
  {
    if history == [] {
      assert history + [a] == [a];
    } else {
      var h, rest := history[0], history[1..];
      assert (history + [a])[1..] == rest + [a];
      LastActionsExtend(rest, a);
      FirstActionExtend(h, rest, a);
      KeepAppend(FirstAction(h, rest), LastActions(rest), Unrelated(a.domain));
      var e, k := FirstAction(h, rest + [a]), Keep(LastActions(rest), Unrelated(a.domain));
      assert e + (k + [a.Rule()]) == e + k + [a.Rule()];
    }
  }

  lemma {:induction false} FirstActionExtend(h: Action, rest: seq<Action>, a: Action)
    ensures FirstAction(h, rest + [a]) == Keep(FirstAction(h, rest), Unrelated(a.domain))
  {
    ConcernsOwnDomain(h, a.domain);
    TouchedExtend(rest, a, h.domain);
  }

  lemma {:induction false} TouchedExtend(history: seq<Action>, a: Action, domain: string)
    ensures Touched(history + [a], domain) <==> Touched(history, domain) || a.domain == domain
  {
    var longer := history + [a];
    assert longer[|history|] == a;
    if i :| 0 <= i < |history| && history[i].domain == domain {
      assert longer[i].domain == domain;
    }
  }

  lemma {:induction false} UntouchedExtend(s: seq<string>, history: seq<Action>, a: Action)
    ensures Keep(s, Untouched(history + [a])) == Keep(Keep(s, Untouched(history)), Unrelated(a.domain))
  {
    if s != [] {
      UntouchedExtend(s[1..], history, a);
      var longer := history + [a];
      assert longer[|history|] == a && forall i | 0 <= i < |history| :: longer[i] == history[i];
      assert Untouched(longer)(s[0]) <==> Untouched(history)(s[0]) && Unrelated(a.domain)(s[0]);
    }
  }

  /** Any history of edits has the closed form: the original list without the touched domains'
      rules, order kept, then the last action of each touched domain in order of last touch. */
  lemma {:induction false} HistoryClosedForm(current: seq<string>, history: seq<Action>)
    ensures AfterEdits(current, history) == ClosedForm(current, history)
  {
    if history == [] {
      KeepAll(current, Untouched(history));
    } else {
      var n := |history| - 1;
      var h, a := history[..n], history[n];
      assert history == h + [a];
      HistoryClosedForm(current, h);
      KeepAppend(Keep(current, Untouched(h)), LastActions(h), Unrelated(a.domain));
      UntouchedExtend(current, h, a);
      LastActionsExtend(h, a);
    }
  }

  // ---------------------------------------------------------------- corollaries

  /** Of two edits in a row to one domain the last one wins, and repeating one changes nothing. */
  lemma {:induction false} LastWriteWins(current: seq<string>, a: Action, b: Action)
    requires a.domain == b.domain
    ensures Edited(Edited(current, a), b) == Edited(current, b)
  {
    KeepAppend(Keep(current, Unrelated(a.domain)), [a.Rule()], Unrelated(b.domain));
    ConcernsOwnDomain(a, b.domain);
    KeepAll(Keep(current, Unrelated(a.domain)), Unrelated(b.domain));
    KeepNone([a.Rule()], Unrelated(b.domain));
  }

  lemma {:induction false} ConcernsOne(rule: string, domain: string, other: string)
    requires Concerns(rule, domain) && Concerns(rule, other)
    ensures domain == other
  {
    var b := Action(domain, TrimSpace(rule) == BlockRule(domain));
    ConcernsOwnDomain(b, other);
    TrimKeepsRule(b);
  }

  function Related(domain: string): string -> bool
  {
    (rule: string) => Concerns(rule, domain)
  }

  /** Exactly one rule then concerns an edited domain, the one asked for, and the rules that
      concern other domains, or none, are as they were. */
  lemma {:induction false} OneRulePerDomain(current: seq<string>, a: Action, other: string)
    ensures Keep(Edited(current, a), Related(a.domain)) == [a.Rule()]
    ensures Keep(Edited(current, a), Unrelated(a.domain)) == Keep(current, Unrelated(a.domain))
    ensures other != a.domain ==> Keep(Edited(current, a), Related(other)) == Keep(current, Related(other))
  {
    var kept := Keep(current, Unrelated(a.domain));
    ConcernsOwnDomain(a, a.domain);
    ConcernsOwnDomain(a, other);
    KeepAppend(kept, [a.Rule()], Related(a.domain));
    KeepNone(kept, Related(a.domain));
    KeepAppend(kept, [a.Rule()], Unrelated(a.domain));
    KeepAll(kept, Unrelated(a.domain));
    if other != a.domain {
      KeepAppend(kept, [a.Rule()], Related(other));
      KeepNone([a.Rule()], Related(other));
      forall rule | Related(other)(rule) ensures Unrelated(a.domain)(rule) {
        if Concerns(rule, a.domain) {
          ConcernsOne(rule, other, a.domain);
        }
      }
      KeepNarrow(current, Unrelated(a.domain), Related(other));
    }
  }
}
