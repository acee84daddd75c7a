/**
 * The `quagga_bgp_community_list` provider: the scanner that groups the
 * `ip community-list` lines of `show running-config` into one record per
 * list, and the scripts `create`, `destroy` and `rules=` hand to `vtysh`.
 */
module CommunityList {
  import opened Common
  import opened Text
  import opened Vtysh
  import Prefetch

  /** The property hash of one community list: `ensure`, `name` and `rules`. */
  datatype CommunityList = CommunityList(name: string, ensure: Ensure, rules: seq<string>)

  // ---------------------------------------------------------------------
  // The line recogniser.

  /** `\d+:\d+`: a community written as two numbers separated by a colon. */
  predicate IsCommunity(t: string) {
    var a := LeadingDigits(t);
    0 < |a| < |t| && t[|a|] == ':' && AllDigits(t[|a| + 1..])
  }

  /**
   * `\d+:\d+` at the start of `body`, with the regular expression's greedy
   * digit runs: the community and what follows it.
   */
  function NextCommunity(body: string): (r: Option<(string, string)>)
    ensures r.Some? ==> IsCommunity(r.value.0) && body == r.value.0 + r.value.1
    ensures r.Some? ==> |r.value.1| == 0 || !IsDigit(r.value.1[0])
  {
    var a := LeadingDigits(body);
    var afterA := body[|a|..];
    if |a| == 0 || |afterA| == 0 || afterA[0] != ':' then None
    else
      var b := LeadingDigits(afterA[1..]);
      if |b| == 0 then None
      else
        var token := body[..|a| + 1 + |b|];
        assert IsCommunity(token) by {
          assert token == a + afterA[..1 + |b|];
          LeadingDigitsPrefix(a, afterA[..1 + |b|]);
          assert token[|a| + 1..] == b;
        }
        assert body == token + afterA[1..][|b|..];
        Some((token, afterA[1..][|b|..]))
  }

  /**
   * The part `((\s(\d+:\d+))+)\Z` of the pattern: one or more communities,
   * each preceded by one `\s`, and nothing after the last. The result is what
   * `$3.strip.split(/\s/)` gives for a matching tail.
   */
  function Communities(t: string): (r: Option<seq<string>>)
    ensures r.Some? ==> |r.value| > 0 && forall i :: 0 <= i < |r.value| ==> IsCommunity(r.value[i])
    decreases |t|
  {
    if |t| == 0 || !IsSpace(t[0]) then None
    else match NextCommunity(t[1..])
      case None => None
      case Some((token, after)) =>
        if after == "" then Some([token])
        else match Communities(after)
          case None => None
          case Some(more) => Some([token] + more)
  }

  /** A recognised line: the list's name, its action and its communities. */
  datatype RuleLine = RuleLine(name: string, action: string, communities: seq<string>)

  /** The fixed part `\Aip\scommunity-list\s` of the pattern. */
  const LinePrefix: seq<Tok> := [Lit("ip"), Sp, Lit("community-list"), Sp]

  /** `\s(deny|permit)` at the start of `tail`: the action and what follows it. */
  function NextAction(tail: string): (r: Option<(string, string)>)
    ensures r.Some? ==> r.value.0 == "deny" || r.value.0 == "permit"
  {
    match Strip(tail, [Sp, Lit("deny")])
    case Some(t) => Some(("deny", t))
    case None =>
      match Strip(tail, [Sp, Lit("permit")])
      case Some(t) => Some(("permit", t))
      case None => None
  }

  /** `/\Aip\scommunity-list\s(\d+)\s(deny|permit)((\s(\d+:\d+))+)\Z/` and its captures. */
  function ParseRule(line: string): (r: Option<RuleLine>)
    ensures r.Some? ==> AllDigits(r.value.name)
    ensures r.Some? ==> r.value.action == "deny" || r.value.action == "permit"
    ensures r.Some? ==> |r.value.communities| > 0
    ensures r.Some? ==> forall i :: 0 <= i < |r.value.communities| ==> IsCommunity(r.value.communities[i])
  {
    match Strip(line, LinePrefix)
    case None => None
    case Some(rest) =>
      var name := LeadingDigits(rest);
      if |name| == 0 then None
      else match NextAction(rest[|name|..])
        case None => None
        case Some((action, t)) =>
          match Communities(t)
          case None => None
          case Some(cs) => Some(RuleLine(name, action, cs))
  }

  /** `"#{action} #{community}"` for each community, in order. */
  function Rules(action: string, communities: seq<string>): (rules: seq<string>)
    ensures |rules| == |communities|
    ensures forall i :: 0 <= i < |communities| ==> rules[i] == action + " " + communities[i]
  {
    if communities == [] then [] else [action + " " + communities[0]] + Rules(action, communities[1..])
  }

  lemma {:induction false} RulesConcat(action: string, a: seq<string>, b: seq<string>)
    ensures Rules(action, a + b) == Rules(action, a) + Rules(action, b)
  {
    if a == [] {
      assert a + b == b;
    } else {
      assert (a + b)[1..] == a[1..] + b;
      RulesConcat(action, a[1..], b);
    }
  }

  // ---------------------------------------------------------------------
  // `self.instances`.

  /** The list a recognised line starts: present, under its name, with no rules yet. */
  function Start(name: string): CommunityList {
    CommunityList(name, EnsurePresent, [])
  }

  /** The records a recognised line leaves: a new list unless it continues the current one. */
  function Add(current: Option<CommunityList>, rule: RuleLine): (r: (seq<CommunityList>, CommunityList))
    ensures r.1.name == rule.name && r.1.ensure == (if current.Some? && current.value.name == rule.name then current.value.ensure else EnsurePresent)
  {
    var base := if current.Some? && current.value.name == rule.name then current.value else Start(rule.name);
    (if current.Some? && current.value.name == rule.name then [] else Pending(current),
     base.(rules := base.rules + Rules(rule.action, rule.communities)))
  }

  /** What one line does to the scan: emit records and go on, or stop (`break`). */
  datatype Step = Go(emitted: seq<CommunityList>, found: bool, current: Option<CommunityList>) | Stop

  /**
   * One line of the loop: `!` is skipped; a recognised line adds its rules,
   * to the current list or to a new one; once a list has been seen, any
   * other line that starts with a word character stops the loop.
   */
  function StepLine(line: string, found: bool, current: Option<CommunityList>): Step {
    if line == "!" then Go([], found, current)
    else match ParseRule(line)
      case Some(rule) =>
        var (emitted, next) := Add(current, rule);
        Go(emitted, true, Some(next))
      case None => if IsTopLevel(line) && found then Stop else Go([], found, current)
  }

  /**
   * The records the rest of the scan emits, given `found_community_list` and
   * the list being built (`None` for the empty hash).
   */
  function Scan(lines: seq<string>, found: bool, current: Option<CommunityList>): seq<CommunityList>
    decreases |lines|
  {
    if lines == [] then Pending(current)
    else match StepLine(lines[0], found, current)
      case Stop => Pending(current)
      case Go(emitted, f, c) => emitted + Scan(lines[1..], f, c)
  }

  /** The records `instances` builds from the lines of `show running-config`. */
  function Parse(config: seq<string>): seq<CommunityList> {
    Scan(config, false, None)
  }

  /**
   * `self.instances`: one pass over the lines, threading `previous_name`,
   * `found_community_list` and the hash being built.
   */
  method Instances(config: seq<string>) returns (providers: seq<CommunityList>)
    ensures providers == Parse(config)
  {
    providers := [];
    var hash: Option<CommunityList> := None;
    var previousName := "";
    var found := false;
    var i := 0;
    assert config[i..] == config;
    while i < |config|
      invariant 0 <= i <= |config|
      invariant previousName == (if hash.Some? then hash.value.name else "")
      invariant providers + Scan(config[i..], found, hash) == Parse(config)
    {
      var line := config[i];
      ghost var step := StepLine(line, found, hash);
      ghost var before := providers;
      assert Scan(config[i..], found, hash) == (if step.Stop? then Pending(hash) else step.emitted + Scan(config[i + 1..], step.found, step.current));
      var rule := ParseRule(line);
      if line == "!" {
      } else if rule.Some? {
        found := true;
        var emitted, next := TakeRule(hash, previousName, rule.value);
        providers := providers + emitted;
        hash := Some(next);
        previousName := next.name;
      } else if IsTopLevel(line) && found {
        break;
      }
      assert step.Go? && providers == before + step.emitted && found == step.found && hash == step.current;
      Associative(before, step.emitted, Scan(config[i + 1..], found, hash));
      assert providers + Scan(config[i + 1..], found, hash) == Parse(config);
      i := i + 1;
    }
    if hash.Some? {
      providers := providers + [hash.value];
    }
  }

  /**
   * The branch of the loop for a recognised line: a name other than
   * `previous_name` emits the hash built so far and starts a new one; the
   * line's rules are then appended.
   */
  method TakeRule(hash: Option<CommunityList>, previousName: string, rule: RuleLine)
    returns (emitted: seq<CommunityList>, next: CommunityList)
    requires previousName == (if hash.Some? then hash.value.name else "")
    requires AllDigits(rule.name)
    ensures (emitted, next) == Add(hash, rule)
  {
    var base: CommunityList;
    emitted := [];
    if rule.name != previousName {
      if hash.Some? {
        emitted := [hash.value];
      }
      base := Start(rule.name);
    } else {
      base := hash.value;
    }
    var rules := AppendRules(base.rules, rule.action, rule.communities);
    next := base.(rules := rules);
  }

  /** `communities.each { |community| hash[:rules] << "#{action} #{community}" }`. */
  method AppendRules(rules: seq<string>, action: string, communities: seq<string>) returns (r: seq<string>)
    ensures r == rules + Rules(action, communities)
  {
    r := rules;
    var j := 0;
    while j < |communities|
      invariant 0 <= j <= |communities|
      invariant r == rules + Rules(action, communities[..j])
    {
      TakeNext(communities, j);
      RulesConcat(action, communities[..j], [communities[j]]);
      r := r + [action + " " + communities[j]];
      j := j + 1;
    }
    TakeAll(communities);
  }

  // ---------------------------------------------------------------------
  // What the scanner promises.

  /** A rule as the scanner records it: an action, a blank and one community. */
  predicate IsRule(rule: string) {
    || ("deny " <= rule && IsCommunity(rule[5..]))
    || ("permit " <= rule && IsCommunity(rule[7..]))
  }

  /** A list as the scanner builds it. */
  predicate ValidList(r: CommunityList) {
    && r.ensure == EnsurePresent
    && AllDigits(r.name)
    && |r.rules| > 0
    && forall i :: 0 <= i < |r.rules| ==> IsRule(r.rules[i])
  }

  lemma RuleIsRule(action: string, c: string)
    requires action == "deny" || action == "permit"
    requires IsCommunity(c)
    ensures IsRule(action + " " + c)
  {
    var rule := action + " " + c;
    if action == "deny" {
      assert rule == "deny " + c && rule[5..] == c;
    } else {
      assert rule == "permit " + c && rule[7..] == c;
    }
  }

  /** The list a recognised line leaves behind is a list as the scanner builds it. */
  lemma AddValid(current: Option<CommunityList>, rule: RuleLine)
    requires current.Some? ==> ValidList(current.value)
    requires AllDigits(rule.name) && (rule.action == "deny" || rule.action == "permit") && |rule.communities| > 0
    requires forall i :: 0 <= i < |rule.communities| ==> IsCommunity(rule.communities[i])
    ensures ValidList(Add(current, rule).1)
  {
    var next := Add(current, rule).1;
    var old_ := if current.Some? && current.value.name == rule.name then current.value.rules else [];
    var added := Rules(rule.action, rule.communities);
    assert next.rules == old_ + added;
    forall i | 0 <= i < |next.rules|
      ensures IsRule(next.rules[i])
    {
      if i >= |old_| {
        RuleIsRule(rule.action, rule.communities[i - |old_|]);
      }
    }
  }

  /** Every record the scan emits is a list as the scanner builds it. */
  lemma {:induction false} ScanValid(lines: seq<string>, found: bool, current: Option<CommunityList>)
    requires current.Some? ==> ValidList(current.value)
    ensures forall k :: 0 <= k < |Scan(lines, found, current)| ==> ValidList(Scan(lines, found, current)[k])
    decreases |lines|
  {
    if lines != [] {
      var line := lines[0];
      if line != "!" && ParseRule(line).Some? {
        AddValid(current, ParseRule(line).value);
      }
      match StepLine(line, found, current)
      case Stop =>
      case Go(emitted, f, c) =>
        ScanValid(lines[1..], f, c);
    }
  }

  lemma ParseValid(config: seq<string>)
    ensures forall k :: 0 <= k < |Parse(config)| ==> ValidList(Parse(config)[k])
  {
    ScanValid(config, false, None);
  }

  /** Neighbouring records have different names: consecutive lines of one list are merged. */
  predicate NeighboursDiffer(rs: seq<CommunityList>) {
    forall k :: 0 <= k < |rs| - 1 ==> rs[k].name != rs[k + 1].name
  }

  lemma {:induction false} ScanNeighbours(lines: seq<string>, found: bool, current: Option<CommunityList>)
    ensures NeighboursDiffer(Scan(lines, found, current))
    ensures current.Some? ==> |Scan(lines, found, current)| > 0 && Scan(lines, found, current)[0].name == current.value.name
    decreases |lines|
  {
    if lines != [] {
      match StepLine(lines[0], found, current)
      case Stop =>
      case Go(emitted, f, c) =>
        ScanNeighbours(lines[1..], f, c);
    }
  }

  lemma ParseNeighbours(config: seq<string>)
    ensures NeighboursDiffer(Parse(config))
  {
    ScanNeighbours(config, false, None);
  }

  // ---------------------------------------------------------------------
  // Writing lines back.

  /** `" c1 c2 …"`: each community preceded by a blank. */
  function Join(communities: seq<string>): string {
    if communities == [] then "" else " " + communities[0] + Join(communities[1..])
  }

  /** The line `show running-config` prints for a list with these communities. */
  function ConfigLine(name: string, action: string, communities: seq<string>): string {
    "ip community-list " + name + " " + action + Join(communities)
  }

  lemma CommunitySplit(c: string)
    requires IsCommunity(c)
    ensures var a := LeadingDigits(c); c == a + (":" + c[|a| + 1..]) && AllDigits(c[|a| + 1..])
  {
    var a := LeadingDigits(c);
    assert c == c[..|a|] + [c[|a|]] + c[|a| + 1..];
  }

  /** A community followed by a non-digit is read as that community. */
  lemma NextCommunityOf(c: string, tail: string)
    requires IsCommunity(c)
    requires |tail| == 0 || !IsDigit(tail[0])
    ensures NextCommunity(c + tail) == Some((c, tail))
  {
    var a := LeadingDigits(c);
    var b := c[|a| + 1..];
    CommunitySplit(c);
    var body := c + tail;
    var afterA := ":" + (b + tail);
    assert body == a + afterA;
    LeadingDigitsPrefix(a, afterA);
    assert body[|a|..] == afterA;
    assert afterA[1..] == b + tail;
    LeadingDigitsPrefix(b, tail);
    assert (b + tail)[|b|..] == tail;
    assert body[..|a| + 1 + |b|] == c;
  }

  lemma JoinCons(communities: seq<string>)
    requires |communities| > 0
    ensures Join(communities) == " " + (communities[0] + Join(communities[1..]))
    ensures var tail := Join(communities[1..]); |tail| == 0 || tail[0] == ' '
  {
    var more := communities[1..];
    assert Join(communities) == " " + communities[0] + Join(more);
    Associative(" ", communities[0], Join(more));
    if more != [] {
      assert Join(more) == " " + more[0] + Join(more[1..]);
      assert Join(more)[0] == ' ';
    }
  }

  /** One community, preceded by a blank and followed by the rest of the tail. */
  lemma CommunitiesCons(c: string, tail: string)
    requires IsCommunity(c)
    requires |tail| == 0 || tail[0] == ' '
    ensures Communities(" " + (c + tail))
         == if tail == "" then Some([c])
            else if Communities(tail).Some? then Some([c] + Communities(tail).value)
            else None
  {
    NextCommunityOf(c, tail);
    assert (" " + (c + tail))[1..] == c + tail;
  }

  /** The communities of a written line read back as written. */
  lemma {:induction false} CommunitiesOfJoin(communities: seq<string>)
    requires |communities| > 0 && forall i :: 0 <= i < |communities| ==> IsCommunity(communities[i])
    ensures Communities(Join(communities)) == Some(communities)
  {
    var c := communities[0];
    var more := communities[1..];
    JoinCons(communities);
    CommunitiesCons(c, Join(more));
    if more == [] {
      assert communities == [c];
    } else {
      assert Communities(Join(more)) == Some(more) by {
        forall i | 0 <= i < |more|
          ensures IsCommunity(more[i])
        {
          assert more[i] == communities[i + 1];
        }
        CommunitiesOfJoin(more);
      }
      assert Join(more) != "";
      HeadTail(communities);
    }
  }

  lemma SpellLinePrefix()
    ensures Spell(LinePrefix) == "ip community-list "
  {
    SpellCons(Lit("ip"), [Sp, Lit("community-list"), Sp]);
    SpellCons(Sp, [Lit("community-list"), Sp]);
    SpellCons(Lit("community-list"), [Sp]);
    SpellCons(Sp, []);
  }

  lemma SpellAction(w: string)
    ensures Spell([Sp, Lit(w)]) == " " + w
  {
    SpellCons(Sp, [Lit(w)]);
    SpellCons(Lit(w), []);
    assert w + "" == w;
  }

  lemma StripLinePrefix(rest: string)
    ensures Strip("ip community-list " + rest, LinePrefix) == Some(rest)
  {
    SpellLinePrefix();
    StripSpell(LinePrefix, rest);
  }

  /** `\s(deny|permit)` reads the action written after a blank. */
  lemma NextActionOf(action: string, t: string)
    requires action == "deny" || action == "permit"
    ensures NextAction(" " + action + t) == Some((action, t))
  {
    SpellAction(action);
    StripSpell([Sp, Lit(action)], t);
    if action == "permit" {
      var tail := " " + action + t;
      assert Strip(tail, [Sp, Lit("deny")]) == Strip(tail[1..], [Lit("deny")]);
      assert tail[1..][0] == 'p';
      assert Strip(tail[1..], [Lit("deny")]) == None;
    }
  }

  /** The name of a line is its digit run up to the blank before the action. */
  lemma ParseRuleName(name: string, tail: string)
    requires AllDigits(name) && |tail| > 0 && !IsDigit(tail[0])
    ensures ParseRule("ip community-list " + (name + tail))
         == match NextAction(tail)
            case None => None
            case Some((action, t)) => if Communities(t).Some? then Some(RuleLine(name, action, Communities(t).value)) else None
  {
    StripLinePrefix(name + tail);
    LeadingDigitsPrefix(name, tail);
    assert (name + tail)[|name|..] == tail;
  }

  /** A written line is recognised with the name, action and communities it was written from. */
  lemma ParseConfigLine(name: string, action: string, communities: seq<string>)
    requires AllDigits(name)
    requires action == "deny" || action == "permit"
    requires |communities| > 0 && forall i :: 0 <= i < |communities| ==> IsCommunity(communities[i])
    ensures ParseRule(ConfigLine(name, action, communities)) == Some(RuleLine(name, action, communities))
  {
    var j := Join(communities);
    var tail := " " + action + j;
    assert ConfigLine(name, action, communities) == "ip community-list " + (name + tail);
    ParseRuleName(name, tail);
    NextActionOf(action, j);
    CommunitiesOfJoin(communities);
  }

  // ---------------------------------------------------------------------
  // The provider.

  /** `'ip community-list %{name} %{rule}'` for each rule, in order. */
  function CreateLines(name: string, rules: seq<string>): (lines: seq<string>)
    ensures |lines| == |rules|
    ensures forall i :: 0 <= i < |rules| ==> lines[i] == "ip community-list " + name + " " + rules[i]
  {
    if rules == [] then [] else ["ip community-list " + name + " " + rules[0]] + CreateLines(name, rules[1..])
  }

  /** A recorded rule splits into its action and its community. */
  lemma RuleSplit(rule: string) returns (action: string, c: string)
    requires IsRule(rule)
    ensures action == "deny" || action == "permit"
    ensures IsCommunity(c) && rule == action + " " + c
  {
    if "deny " <= rule {
      action, c := "deny", rule[5..];
      assert rule[0] == 'd' && !("permit " <= rule);
      assert rule[..5] == "deny " == action + " ";
      assert rule == rule[..5] + c;
    } else {
      action, c := "permit", rule[7..];
      assert rule[..7] == "permit " == action + " ";
      assert rule == rule[..7] + c;
    }
  }

  /**
   * The line `create` writes for a rule is recognised under the list's name,
   * and the rules the scanner records for it are that one rule.
   */
  lemma ReadCreateLine(name: string, rule: string)
    requires AllDigits(name) && IsRule(rule)
    ensures var r := ParseRule("ip community-list " + name + " " + rule);
      r.Some? && r.value.name == name && Rules(r.value.action, r.value.communities) == [rule]
  {
    var action, c := RuleSplit(rule);
    assert "ip community-list " + name + " " + rule == ConfigLine(name, action, [c]) by {
      JoinOne(c);
      Associative("ip community-list " + name + " ", action, " " + c);
      Associative(action, " ", c);
    }
    ParseConfigLine(name, action, [c]);
  }

  lemma JoinOne(c: string)
    ensures Join([c]) == " " + c
  {
    assert [c][1..] == [];
  }

  /**
   * The scanner's step for a line `create` writes: the rule joins the list
   * being built, or starts it.
   */
  lemma StepCreateLine(name: string, rule: string, found: bool, current: Option<CommunityList>)
    requires AllDigits(name) && IsRule(rule)
    requires current.Some? ==> current.value.name == name
    ensures var base := if current.Some? then current.value else Start(name);
      StepLine("ip community-list " + name + " " + rule, found, current)
      == Go([], true, Some(base.(rules := base.rules + [rule])))
  {
    var line := "ip community-list " + name + " " + rule;
    ReadCreateLine(name, rule);
    assert line != "!" by {
      assert |line| > 1;
    }
  }

  /** The first line `create` writes joins the list being built. */
  lemma ScanCreateStep(r: CommunityList, done: seq<string>, rules: seq<string>)
    requires rules != [] && ValidList(r.(rules := done + rules))
    ensures Scan(CreateLines(r.name, rules), true, Some(r.(rules := done)))
         == Scan(CreateLines(r.name, rules[1..]), true, Some(r.(rules := done + [rules[0]])))
  {
    var rule := rules[0];
    assert IsRule(rule) by {
      assert rule == (done + rules)[|done|];
    }
    var line := "ip community-list " + r.name + " " + rule;
    StepCreateLine(r.name, rule, true, Some(r.(rules := done)));
    var lines := CreateLines(r.name, rules);
    assert lines[0] == line && lines[1..] == CreateLines(r.name, rules[1..]);
  }

  /** Scanning the lines `create` writes for one list, after a line of the same list. */
  lemma {:induction false} ScanCreateLines(r: CommunityList, done: seq<string>, rules: seq<string>)
    requires ValidList(r.(rules := done + rules))
    ensures Scan(CreateLines(r.name, rules), true, Some(r.(rules := done))) == [r.(rules := done + rules)]
    decreases |rules|
  {
    if rules == [] {
      assert done + rules == done;
    } else {
      var more := done + [rules[0]];
      assert more + rules[1..] == done + rules by {
        AppendFirst(done, rules);
      }
      ScanCreateStep(r, done, rules);
      ScanCreateLines(r, more, rules[1..]);
    }
  }

  /**
   * The lines `create` writes for a list read back, through the scanner, as
   * that same list.
   */
  lemma ParseCreateLines(r: CommunityList)
    requires ValidList(r)
    ensures Parse(CreateLines(r.name, r.rules)) == [r]
  {
    var rule := r.rules[0];
    var line := "ip community-list " + r.name + " " + rule;
    StepCreateLine(r.name, rule, false, None);
    assert Start(r.name).rules + [rule] == [rule];
    var lines := CreateLines(r.name, r.rules);
    assert lines[0] == line && lines[1..] == CreateLines(r.name, r.rules[1..]);
    HeadTail(r.rules);
    ScanCreateLines(r, [rule], r.rules[1..]);
  }

  /** The `NoMethodError` of `@resource[:rules].each` for a resource without rules. */
  const NilEach := "undefined method `each' for nil:NilClass"

  /**
   * One `quagga_bgp_community_list` provider: its property hash and the
   * values of the resource it manages (`@resource[:name]`, and
   * `@resource[:rules]`, `None` for a resource declared without rules).
   */
  class Provider {
    const resourceName: string
    const desiredRules: Option<seq<string>>
    var ensure: Option<Ensure>
    var name: Option<string>
    var rules: Option<seq<string>>

    /** `new(hash)` for a parsed record, then attached to its resource by `prefetch`. */
    constructor FromRecord(r: CommunityList, resourceName: string, desiredRules: Option<seq<string>>)
      ensures ensure == Some(r.ensure) && name == Some(r.name) && rules == Some(r.rules)
      ensures this.resourceName == resourceName && this.desiredRules == desiredRules
      ensures Exists() <==> r.ensure == EnsurePresent
      ensures Rules() == Some(r.rules)
    {
      this.resourceName := resourceName;
      this.desiredRules := desiredRules;
      ensure := Some(r.ensure);
      name := Some(r.name);
      rules := Some(r.rules);
    }

    /** A provider for a resource no parsed record matched: its property hash is empty. */
    constructor Unmatched(resourceName: string, desiredRules: Option<seq<string>>)
      ensures ensure == None && name == None && rules == None
      ensures this.resourceName == resourceName && this.desiredRules == desiredRules
      ensures !Exists() && Rules() == None
    {
      this.resourceName := resourceName;
      this.desiredRules := desiredRules;
      ensure := None;
      name := None;
      rules := None;
    }

    /** `exists?`. */
    predicate Exists()
      reads this
    {
      ensure == Some(EnsurePresent)
    }

    /** `rules`: the stored rules, `None` standing for `:absent`. */
    function Rules(): Option<seq<string>>
      reads this
    {
      rules
    }

    /**
     * `create`: one `ip community-list` command per desired rule; the list
     * then exists. Without rules, `nil.each` raises before anything is sent
     * and the hash is left as it was.
     */
    method Create() returns (outcome: Result<seq<string>>)
      modifies this`ensure
      ensures desiredRules.None? ==> outcome == Err(NilEach) && ensure == old(ensure)
      ensures desiredRules.Some? ==> outcome == Ok(Session(CreateLines(resourceName, desiredRules.value)))
      ensures desiredRules.Some? ==> ensure == Some(EnsurePresent) && Exists()
    {
      if desiredRules.None? {
        return Err(NilEach);
      }
      var wanted := desiredRules.value;
      var body: seq<string> := [];
      var k := 0;
      while k < |wanted|
        invariant 0 <= k <= |wanted|
        invariant body == CreateLines(resourceName, wanted[..k])
      {
        TakeNext(wanted, k);
        CreateLinesConcat(resourceName, wanted[..k], [wanted[k]]);
        body := body + ["ip community-list " + resourceName + " " + wanted[k]];
        k := k + 1;
      }
      TakeAll(wanted);
      outcome := Ok(["configure terminal"] + body + ["end", "write memory"]);
      ensure := Some(EnsurePresent);
    }

    /**
     * `destroy`: remove the list named by the property hash (`nil`, when the
     * hash has no name, prints as nothing); the hash is then cleared.
     */
    method Destroy() returns (cmds: seq<string>)
      modifies this`ensure, this`name, this`rules
      ensures cmds == Session(["no ip community-list " + old(name).GetOr("")])
      ensures ensure == None && name == None && rules == None && !Exists()
    {
      var listName := if name.Some? then name.value else "";
      cmds := ["configure terminal", "no ip community-list " + listName, "end", "write memory"];
      ensure := None;
      name := None;
      rules := None;
    }

    /**
     * `rules=`: destroy the list, create it again (from the resource's rules)
     * unless the new rules are empty, and store the new rules. The scripts
     * sent are returned in order; `error` is the exception `create` raised,
     * after which nothing is stored.
     */
    method SetRules(value: seq<string>) returns (scripts: seq<seq<string>>, error: Option<string>)
      modifies this`ensure, this`name, this`rules
      ensures error == (if value != [] && desiredRules.None? then Some(NilEach) else None)
      ensures |scripts| == (if value == [] || error.Some? then 1 else 2)
      ensures scripts[0] == Session(["no ip community-list " + old(name).GetOr("")])
      ensures |scripts| == 2 ==> scripts[1] == Session(CreateLines(resourceName, desiredRules.value))
      ensures ensure == (if |scripts| == 2 then Some(EnsurePresent) else None)
      ensures rules == (if error.None? then Some(value) else None) && name == None
    {
      var destroyed := Destroy();
      scripts := [destroyed];
      error := None;
      if value != [] {
        var created := Create();
        if created.Err? {
          error := Some(created.message);
          return;
        }
        scripts := scripts + [created.value];
      }
      rules := Some(value);
    }
  }

  lemma {:induction false} CreateLinesConcat(name: string, a: seq<string>, b: seq<string>)
    ensures CreateLines(name, a + b) == CreateLines(name, a) + CreateLines(name, b)
  {
    if a == [] {
      assert a + b == b;
    } else {
      assert (a + b)[1..] == a[1..] + b;
      CreateLinesConcat(name, a[1..], b);
    }
  }

  /**
   * `self.prefetch`: a resource gets a parsed list exactly when one has its
   * name, and then the first such.
   */
  function PrefetchLists(lists: seq<CommunityList>, resources: set<string>): (m: map<string, CommunityList>)
    ensures forall n :: n in m <==> n in resources && exists k :: 0 <= k < |lists| && lists[k].name == n
    ensures forall n :: n in m ==> m[n].name == n && exists k ::
      0 <= k < |lists| && lists[k] == m[n] && forall j :: 0 <= j < k ==> lists[j].name != n
  {
    Prefetch.Pick(lists, (l: CommunityList) => l.name, resources)
  }

  /** `ip community-list 100 permit 10:10 20:20` is one list with one rule per community. */
  lemma MultiRuleExample()
    ensures Parse(["ip community-list 100 permit 10:10 20:20"])
         == [CommunityList("100", EnsurePresent, ["permit 10:10", "permit 20:20"])]
  {
    var lines := ["ip community-list 100 permit 10:10 20:20"];
    var want := CommunityList("100", EnsurePresent, ["permit 10:10", "permit 20:20"]);
    ExampleStep();
    assert lines[1..] == [];
    assert Scan(lines, false, None) == [] + Scan([], true, Some(want));
  }

  lemma ExampleStep()
    ensures StepLine("ip community-list 100 permit 10:10 20:20", false, None)
         == Go([], true, Some(CommunityList("100", EnsurePresent, ["permit 10:10", "permit 20:20"])))
  {
    var line := "ip community-list 100 permit 10:10 20:20";
    ExampleLine();
    ExampleAdd();
    assert line != "!" by {
      assert line[0] == 'i';
    }
  }

  lemma ExampleAdd()
    ensures Add(None, RuleLine("100", "permit", ["10:10", "20:20"]))
         == ([], CommunityList("100", EnsurePresent, ["permit 10:10", "permit 20:20"]))
  {
    ExampleRules();
    var rules: seq<string> := ["permit 10:10", "permit 20:20"];
    assert Start("100").rules + rules == rules;
  }

  lemma ExampleRules()
    ensures Rules("permit", ["10:10", "20:20"]) == ["permit 10:10", "permit 20:20"]
  {
    assert "permit" + " " + "10:10" == "permit 10:10";
    assert "permit" + " " + "20:20" == "permit 20:20";
  }

  lemma ExampleLine()
    ensures ParseRule("ip community-list 100 permit 10:10 20:20") == Some(RuleLine("100", "permit", ["10:10", "20:20"]))
  {
    assert AllDigits("100");
    ExampleCommunity("10:10");
    ExampleCommunity("20:20");
    ParseConfigLine("100", "permit", ["10:10", "20:20"]);
    ExampleJoin();
    ExampleConfigLine();
  }

  lemma ExampleJoin()
    ensures Join(["10:10", "20:20"]) == " 10:10 20:20"
  {
    var one := ["20:20"];
    var two := ["10:10", "20:20"];
    assert one[1..] == [] && Join(one[1..]) == "";
    assert Join(one) == " " + "20:20" + "";
    assert " " + "20:20" + "" == " 20:20";
    assert two[0] == "10:10" && two[1..] == one;
    assert Join(two) == " " + "10:10" + " 20:20";
    assert " " + "10:10" + " 20:20" == " 10:10 20:20";
  }

  lemma ExampleConfigLine()
    ensures "ip community-list " + "100" + " " + "permit" + " 10:10 20:20" == "ip community-list 100 permit 10:10 20:20"
  {
    assert "ip community-list " + "100" == "ip community-list 100";
    assert "ip community-list 100" + " " == "ip community-list 100 ";
    assert "ip community-list 100 " + "permit" == "ip community-list 100 permit";
    assert "ip community-list 100 permit" + " 10:10 20:20" == "ip community-list 100 permit 10:10 20:20";
  }

  lemma ExampleCommunity(c: string)
    requires c == "10:10" || c == "20:20"
    ensures IsCommunity(c)
  {
    LeadingDigitsPrefix(c[..2], c[2..]);
    assert c[..2] + c[2..] == c;
  }
}
