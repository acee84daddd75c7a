/**
 * The interface provider's instance side: the property hash it was built
 * with, the values Puppet set on it (`@property_flush`), and the command
 * scripts `create`, `destroy`, `enable`, `disable` and `flush` hand to
 * `vtysh`.
 */
module InterfaceProvider {
  import opened Common
  import opened Text
  import opened Vtysh
  import opened InterfaceSchema
  import opened InterfaceScan
  import Prefetch

  // ---------------------------------------------------------------------
  // `@property_flush`.

  /** A Ruby hash: its keys in the order they were first assigned, and its entries. */
  datatype Hash = Hash(keys: seq<Prop>, values: map<Prop, Value>)

  predicate Distinct(ps: seq<Prop>) {
    forall i, j :: 0 <= i < j < |ps| ==> ps[i] != ps[j]
  }

  predicate WellFormed(h: Hash) {
    Distinct(h.keys) && forall p :: p in h.values <==> p in h.keys
  }

  const EmptyHash: Hash := Hash([], map[])

  /** `hash[p] = v`: a new key goes last, a key already there keeps its place. */
  function Assign(h: Hash, p: Prop, v: Value): (r: Hash)
    requires WellFormed(h)
    ensures WellFormed(r)
    ensures r.values == h.values[p := v]
    ensures p in h.values ==> r.keys == h.keys
    ensures p !in h.values ==> r.keys == h.keys + [p]
  {
    if p in h.values then Hash(h.keys, h.values[p := v]) else Hash(h.keys + [p], h.values[p := v])
  }

  // ---------------------------------------------------------------------
  // Rendering.

  /** What `<%= value %>` prints: `to_s` of the value (an array as `renderList` prints it). */
  function ValueText(v: Value, renderList: seq<string> -> string): string {
    match v
    case Absent => "absent"
    case Flag(b) => if b then "true" else "false"
    case Str(t) => t
    case Number(n) => IntToString(n)
    case List(items) => renderList(items)
  }

  /** The template of `p` rendered with `value` bound to `v`. */
  function Render(p: Prop, v: Value, renderList: seq<string> -> string): string {
    Template(p, Some(ValueText(v, renderList)))
  }

  /** `interface NAME`, the command that enters an interface's context. */
  function InterfaceCommand(name: string): string {
    "interface " + name
  }

  // ---------------------------------------------------------------------
  // `create`.

  /**
   * The guard of the `create` loop as written: the resource gives the
   * property a value (Ruby's `nil` is a missing key) other than `:absent`.
   * `:false` is a truthy symbol, so it passes.
   */
  predicate SetAsWritten(desired: map<Prop, Value>, p: Prop) {
    p in desired && desired[p] != Absent
  }

  /** The guard as evidently intended: `:false` is not a value to write either. */
  predicate IsSet(desired: map<Prop, Value>, p: Prop) {
    SetAsWritten(desired, p) && desired[p] != Flag(false)
  }

  /** The commands the `create` loop emits for `ps`, with the guard as written. */
  function CreateBodyAsWritten(ps: seq<Prop>, desired: map<Prop, Value>, renderList: seq<string> -> string): seq<string> {
    if ps == [] then []
    else
      var p := ps[|ps| - 1];
      CreateBodyAsWritten(ps[..|ps| - 1], desired, renderList)
        + (if SetAsWritten(desired, p) then [Render(p, desired[p], renderList)] else [])
  }

  /**
   * The commands the `create` loop emits for `ps`, with the corrected
   * guard, in `ps` order.
   */
  function CreateBody(ps: seq<Prop>, desired: map<Prop, Value>, renderList: seq<string> -> string): (body: seq<string>)
    ensures |body| <= |ps|
  {
    if ps == [] then []
    else
      var p := ps[|ps| - 1];
      CreateBody(ps[..|ps| - 1], desired, renderList)
        + (if IsSet(desired, p) then [Render(p, desired[p], renderList)] else [])
  }

  /** `create` writes one rendered template per property that is set, and nothing else. */
  lemma {:induction false} CreateBodyLines(ps: seq<Prop>, desired: map<Prop, Value>, renderList: seq<string> -> string, line: string)
    ensures line in CreateBody(ps, desired, renderList)
        <==> exists p :: p in ps && IsSet(desired, p) && line == Render(p, desired[p], renderList)
  {
    if ps != [] {
      var q := ps[|ps| - 1];
      var front := ps[..|ps| - 1];
      CreateBodyLines(front, desired, renderList, line);
      assert ps == front + [q];
      if exists p :: p in ps && IsSet(desired, p) && line == Render(p, desired[p], renderList) {
        var p :| p in ps && IsSet(desired, p) && line == Render(p, desired[p], renderList);
        if p != q {
          assert p in front;
        }
      }
    }
  }

  /** The first letter of every command a template renders. */
  lemma TemplateLetter(p: Prop, arg: Option<string>)
    ensures |Template(p, arg)| > 0 && Template(p, arg)[0] == Letter(p)
  {
  }

  /** The values Puppet lets the resource give each property. */
  predicate Validated(desired: map<Prop, Value>) {
    forall p :: p in desired ==> Admissible(p, desired[p])
  }

  /** `create` emits `link-detect` exactly when `link_detect` is to be `:true`. */
  lemma CreateLinkDetect(desired: map<Prop, Value>, renderList: seq<string> -> string)
    requires Validated(desired)
    ensures "link-detect" in CreateBody(Schema, desired, renderList)
        <==> LinkDetect in desired && desired[LinkDetect] == Flag(true)
  {
    CreateBodyLines(Schema, desired, renderList, "link-detect");
    if "link-detect" in CreateBody(Schema, desired, renderList) {
      var p :| p in Schema && IsSet(desired, p) && "link-detect" == Render(p, desired[p], renderList);
      TemplateLetter(p, Some(ValueText(desired[p], renderList)));
      assert Letter(p) == 'l';
    }
    if LinkDetect in desired && desired[LinkDetect] == Flag(true) {
      assert LinkDetect in Schema && "link-detect" == Render(LinkDetect, desired[LinkDetect], renderList);
    }
  }

  /** With the guard as written, a resource asking for `link_detect => false` gets `link-detect`. */
  lemma CreateLinkDetectAsWritten(renderList: seq<string> -> string)
    ensures "link-detect" in CreateBodyAsWritten(Schema, map[LinkDetect := Flag(false)], renderList)
    ensures "link-detect" !in CreateBody(Schema, map[LinkDetect := Flag(false)], renderList)
  {
    var desired := map[LinkDetect := Flag(false)];
    assert Schema[..1][..0] == [] && Schema[..2][..1] == Schema[..1] && Schema[..3][..2] == Schema[..2];
    assert CreateBodyAsWritten(Schema[..1], desired, renderList) == [];
    assert CreateBodyAsWritten(Schema[..2], desired, renderList) == [];
    assert CreateBodyAsWritten(Schema[..3], desired, renderList) == [];
    assert Schema[..|Schema| - 1] == Schema[..3];
    assert CreateBodyAsWritten(Schema, desired, renderList) == ["link-detect"];
    CreateLinkDetect(desired, renderList);
  }

  // ---------------------------------------------------------------------
  // `flush`.

  /**
   * `@property_hash[p] - v` and `v.each` need two arrays: for an array
   * property given a value other than `:true`, `:false` and `:absent`,
   * anything else raises.
   */
  predicate Raises(p: Prop, v: Value, hash: map<Prop, Value>) {
    && v != Flag(false) && v != Absent && v != Flag(true)
    && KindOf(p) == ArrayKind
    && !(p in hash && hash[p].List? && v.List?)
  }

  /** Ruby's `Array#-`: the elements of `a` not in `b`, in order, duplicates kept. */
  function Minus(a: seq<string>, b: seq<string>): (r: seq<string>)
    ensures |r| <= |a|
    ensures forall x :: x in r <==> x in a && x !in b
  {
    if a == [] then []
    else (if a[0] in b then [] else [a[0]]) + Minus(a[1..], b)
  }

  /** `no ip address X` for each `X`, in order. */
  function RemoveLines(p: Prop, xs: seq<string>): (r: seq<string>)
    ensures |r| == |xs|
  {
    if xs == [] then [] else ["no " + Template(p, Some(xs[0]))] + RemoveLines(p, xs[1..])
  }

  /** `ip address X` for each `X`, in order. */
  function AddLines(p: Prop, xs: seq<string>): (r: seq<string>)
    ensures |r| == |xs|
  {
    if xs == [] then [] else [Template(p, Some(xs[0]))] + AddLines(p, xs[1..])
  }

  /**
   * The commands `flush` emits for one pending value: `no` and the template
   * rendered with `value` still `nil` (the block's own local, not yet
   * assigned) for `:false` and `:absent`, that same rendering for `:true`, for
   * the array the removals of the current elements no longer wanted and then
   * every wanted element, and the rendered template otherwise.
   */
  function ChangeLines(p: Prop, v: Value, hash: map<Prop, Value>, renderList: seq<string> -> string): seq<string>
    requires !Raises(p, v, hash)
  {
    if v == Flag(false) || v == Absent then ["no " + Template(p, None)]
    else if v == Flag(true) then [Template(p, None)]
    else if KindOf(p) == ArrayKind then RemoveLines(p, Minus(hash[p].items, v.items)) + AddLines(p, v.items)
    else [Render(p, v, renderList)]
  }

  /**
   * The outcome of the `@property_flush.each` loop from the hash `hash`: the
   * commands collected, the property hash afterwards, and whether an entry
   * raised (then the commands are never sent).
   */
  datatype Run = Run(lines: seq<string>, hash: map<Prop, Value>, raised: bool)

  /** `lines` emitted before `run`'s: a raise discards them. */
  function Continue(lines: seq<string>, run: Run): (r: Run)
    ensures r.hash == run.hash && r.raised == run.raised
    ensures !run.raised ==> r.lines == lines + run.lines
  {
    if run.raised then run else Run(lines + run.lines, run.hash, false)
  }

  lemma ContinueContinue(a: seq<string>, b: seq<string>, run: Run)
    ensures Continue(a, Continue(b, run)) == Continue(a + b, run)
  {
    if !run.raised {
      assert a + (b + run.lines) == a + b + run.lines;
    }
  }

  /** The `@property_flush.each` loop over `keys`, reading each value from `values`. */
  function FlushRun(keys: seq<Prop>, values: map<Prop, Value>, hash: map<Prop, Value>, renderList: seq<string> -> string): Run
    requires forall p :: p in keys ==> p in values
  {
    if keys == [] then Run([], hash, false)
    else
      var p := keys[0];
      var v := values[p];
      if Raises(p, v, hash) then Run([], hash, true)
      else Continue(ChangeLines(p, v, hash, renderList), FlushRun(keys[1..], values, hash[p := v], renderList))
  }

  /**
   * An entry raises exactly when it raises on the hash the loop started
   * from: the entries before it only wrote other keys.
   */
  lemma {:induction false} FlushRunRaises(keys: seq<Prop>, values: map<Prop, Value>, hash: map<Prop, Value>, renderList: seq<string> -> string)
    requires Distinct(keys) && forall p :: p in keys ==> p in values
    ensures FlushRun(keys, values, hash, renderList).raised
        <==> exists i :: 0 <= i < |keys| && Raises(keys[i], values[keys[i]], hash)
  {
    if keys != [] {
      var p := keys[0];
      var v := values[p];
      if !Raises(p, v, hash) {
        var tail := keys[1..];
        FlushRunRaises(tail, values, hash[p := v], renderList);
        forall i | 0 <= i < |tail|
          ensures Raises(tail[i], values[tail[i]], hash[p := v]) == Raises(tail[i], values[tail[i]], hash)
        {
          assert tail[i] == keys[i + 1];
        }
        if exists i :: 0 <= i < |keys| && Raises(keys[i], values[keys[i]], hash) {
          var i :| 0 <= i < |keys| && Raises(keys[i], values[keys[i]], hash);
          assert tail[i - 1] == keys[i];
        }
      }
    }
  }

  /** Afterwards every key of the loop holds its pending value and every other key is as it was. */
  lemma {:induction false} FlushRunHash(keys: seq<Prop>, values: map<Prop, Value>, hash: map<Prop, Value>, renderList: seq<string> -> string)
    requires Distinct(keys) && forall p :: p in keys ==> p in values
    requires !FlushRun(keys, values, hash, renderList).raised
    ensures forall p :: p in keys ==>
      p in FlushRun(keys, values, hash, renderList).hash && FlushRun(keys, values, hash, renderList).hash[p] == values[p]
    ensures forall p :: p !in keys ==> (p in FlushRun(keys, values, hash, renderList).hash <==> p in hash)
    ensures forall p :: p !in keys && p in hash ==> FlushRun(keys, values, hash, renderList).hash[p] == hash[p]
  {
    if keys != [] {
      var p := keys[0];
      var tail := keys[1..];
      assert p !in tail by {
        forall i | 0 <= i < |tail|
          ensures tail[i] != p
        {
          assert tail[i] == keys[i + 1];
        }
      }
      FlushRunHash(tail, values, hash[p := values[p]], renderList);
      assert forall q :: q in keys ==> q == p || q in tail;
    }
  }

  /** The commands for each of `keys` against the one hash `hash`, in order. */
  function Changes(keys: seq<Prop>, values: map<Prop, Value>, hash: map<Prop, Value>, renderList: seq<string> -> string): seq<string>
    requires forall p :: p in keys ==> p in values && !Raises(p, values[p], hash)
  {
    if keys == [] then [] else ChangeLines(keys[0], values[keys[0]], hash, renderList) + Changes(keys[1..], values, hash, renderList)
  }

  /**
   * When nothing raises, `flush` writes for each key in turn the commands
   * that take the interface from the value read by `prefetch` to the
   * pending one.
   */
  lemma {:induction false} FlushRunLines(keys: seq<Prop>, values: map<Prop, Value>, hash: map<Prop, Value>, renderList: seq<string> -> string)
    requires Distinct(keys) && forall p :: p in keys ==> p in values
    requires !FlushRun(keys, values, hash, renderList).raised
    ensures forall p :: p in keys ==> !Raises(p, values[p], hash)
    ensures FlushRun(keys, values, hash, renderList).lines == Changes(keys, values, hash, renderList)
  {
    FlushRunRaises(keys, values, hash, renderList);
    if keys != [] {
      var p := keys[0];
      var tail := keys[1..];
      assert p !in tail by {
        forall i | 0 <= i < |tail|
          ensures tail[i] != p
        {
          assert tail[i] == keys[i + 1];
        }
      }
      var after := hash[p := values[p]];
      FlushRunLines(tail, values, after, renderList);
      assert Changes(tail, values, after, renderList) == Changes(tail, values, hash, renderList) by {
        ChangesElsewhere(tail, values, hash, p, values[p], renderList);
      }
    }
  }

  /** Writing a key that is not among `keys` does not change their commands. */
  lemma {:induction false} ChangesElsewhere(keys: seq<Prop>, values: map<Prop, Value>, hash: map<Prop, Value>, q: Prop, w: Value,
                                            renderList: seq<string> -> string)
    requires q !in keys
    requires forall p :: p in keys ==> p in values && !Raises(p, values[p], hash)
    ensures forall p :: p in keys ==> !Raises(p, values[p], hash[q := w])
    ensures Changes(keys, values, hash[q := w], renderList) == Changes(keys, values, hash, renderList)
  {
    if keys != [] {
      assert keys[0] != q;
      ChangesElsewhere(keys[1..], values, hash, q, w, renderList);
    }
  }

  /** Clearing a property writes `no` and its bare template, whatever the hash holds. */
  lemma ClearLines(p: Prop, hash: map<Prop, Value>, renderList: seq<string> -> string)
    ensures ChangeLines(p, Absent, hash, renderList) == ["no " + Template(p, None)]
    ensures ChangeLines(p, Flag(false), hash, renderList) == ["no " + Template(p, None)]
  {
  }

  /** `link_detect => false` writes `no link-detect`; clearing the bandwidth writes `no bandwidth`. */
  lemma ClearExamples(hash: map<Prop, Value>, renderList: seq<string> -> string)
    ensures ChangeLines(LinkDetect, Flag(false), hash, renderList) == ["no link-detect"]
    ensures ChangeLines(Bandwidth, Absent, hash, renderList) == ["no bandwidth"]
    ensures ChangeLines(Description, Absent, hash, renderList) == ["no description"]
  {
    ClearLines(LinkDetect, hash, renderList);
    ClearLines(Bandwidth, hash, renderList);
    ClearLines(Description, hash, renderList);
    assert "no " + "link-detect" == "no link-detect";
    assert "no " + "bandwidth" == "no bandwidth";
    assert "no " + "description" == "no description";
  }

  lemma PrefixCancel(pre: string, a: string, b: string)
    ensures pre + a == pre + b <==> a == b
  {
    if pre + a == pre + b {
      assert a == (pre + a)[|pre|..];
      assert b == (pre + b)[|pre|..];
    }
  }

  lemma {:induction false} RemoveLinesHas(p: Prop, xs: seq<string>, x: string)
    requires p == IpAddress
    ensures "no " + Template(p, Some(x)) in RemoveLines(p, xs) <==> x in xs
    ensures Template(p, Some(x)) !in RemoveLines(p, xs)
  {
    if xs != [] {
      RemoveLinesHas(p, xs[1..], x);
      PrefixCancel("ip address ", x, xs[0]);
      PrefixCancel("no ", Template(p, Some(x)), Template(p, Some(xs[0])));
      assert (Template(p, Some(x)))[0] == 'i';
      assert ("no " + Template(p, Some(xs[0])))[0] == 'n';
      assert xs == [xs[0]] + xs[1..];
    }
  }

  lemma {:induction false} AddLinesHas(p: Prop, xs: seq<string>, x: string)
    requires p == IpAddress
    ensures Template(p, Some(x)) in AddLines(p, xs) <==> x in xs
    ensures "no " + Template(p, Some(x)) !in AddLines(p, xs)
  {
    if xs != [] {
      AddLinesHas(p, xs[1..], x);
      PrefixCancel("ip address ", x, xs[0]);
      assert (Template(p, Some(xs[0])))[0] == 'i';
      assert ("no " + Template(p, Some(x)))[0] == 'n';
      assert xs == [xs[0]] + xs[1..];
    }
  }

  /**
   * Changing the addresses removes exactly the current addresses that are
   * no longer wanted and adds every wanted one.
   */
  lemma AddressChange(current: seq<string>, wanted: seq<string>, hash: map<Prop, Value>, renderList: seq<string> -> string)
    requires IpAddress in hash && hash[IpAddress] == List(current)
    ensures !Raises(IpAddress, List(wanted), hash)
    ensures forall x ::
      ("no " + Template(IpAddress, Some(x)) in ChangeLines(IpAddress, List(wanted), hash, renderList)) <==> (x in current && x !in wanted)
    ensures forall x ::
      (Template(IpAddress, Some(x)) in ChangeLines(IpAddress, List(wanted), hash, renderList)) <==> (x in wanted)
    ensures |ChangeLines(IpAddress, List(wanted), hash, renderList)| == |Minus(current, wanted)| + |wanted|
  {
    var removed := Minus(current, wanted);
    var lines := ChangeLines(IpAddress, List(wanted), hash, renderList);
    assert lines == RemoveLines(IpAddress, removed) + AddLines(IpAddress, wanted);
    forall x
      ensures "no " + Template(IpAddress, Some(x)) in lines <==> x in current && x !in wanted
      ensures Template(IpAddress, Some(x)) in lines <==> x in wanted
    {
      RemoveLinesHas(IpAddress, removed, x);
      AddLinesHas(IpAddress, wanted, x);
    }
  }

  lemma AddressLine(x: string)
    ensures Template(IpAddress, Some(x)) == "ip address " + x
  {
  }

  /** The addresses `10.0.0.1/24` and `10.0.0.2/24` replaced by `10.0.0.2/24` and `10.0.0.3/24`. */
  lemma AddressChangeExample(renderList: seq<string> -> string)
    ensures ChangeLines(IpAddress, List(["10.0.0.2/24", "10.0.0.3/24"]),
                        map[IpAddress := List(["10.0.0.1/24", "10.0.0.2/24"])], renderList)
         == ["no ip address 10.0.0.1/24", "ip address 10.0.0.2/24", "ip address 10.0.0.3/24"]
  {
    ExampleRemovals();
    ExampleAdditions();
  }

  lemma ExampleRemovals()
    ensures RemoveLines(IpAddress, Minus(["10.0.0.1/24", "10.0.0.2/24"], ["10.0.0.2/24", "10.0.0.3/24"]))
         == ["no ip address 10.0.0.1/24"]
  {
    ExampleMinus();
    AddressLine("10.0.0.1/24");
    assert "ip address " + "10.0.0.1/24" == "ip address 10.0.0.1/24";
    assert "no " + "ip address 10.0.0.1/24" == "no ip address 10.0.0.1/24";
  }

  lemma ExampleMinus()
    ensures Minus(["10.0.0.1/24", "10.0.0.2/24"], ["10.0.0.2/24", "10.0.0.3/24"]) == ["10.0.0.1/24"]
  {
    var current := ["10.0.0.1/24", "10.0.0.2/24"];
    var wanted := ["10.0.0.2/24", "10.0.0.3/24"];
    assert "10.0.0.1/24"[7] != "10.0.0.2/24"[7] && "10.0.0.1/24"[7] != "10.0.0.3/24"[7];
    assert current[1..] == ["10.0.0.2/24"] && current[1..][1..] == [];
  }

  lemma ExampleAdditions()
    ensures AddLines(IpAddress, ["10.0.0.2/24", "10.0.0.3/24"]) == ["ip address 10.0.0.2/24", "ip address 10.0.0.3/24"]
  {
    var wanted := ["10.0.0.2/24", "10.0.0.3/24"];
    AddressLine("10.0.0.2/24");
    AddressLine("10.0.0.3/24");
    assert "ip address " + "10.0.0.2/24" == "ip address 10.0.0.2/24";
    assert "ip address " + "10.0.0.3/24" == "ip address 10.0.0.3/24";
    assert wanted[1..] == ["10.0.0.3/24"] && wanted[1..][1..] == [];
  }

  // ---------------------------------------------------------------------
  // The provider.

  /**
   * One `quagga_interface` provider: `@property_hash` split into its fields,
   * `@property_flush` as `pending`, and the values of the resource it
   * manages (`@resource[:name]`, and `@resource[p]` for each property, a
   * missing key being `nil`).
   */
  class Provider {
    const resourceName: string
    const desired: map<Prop, Value>
    const renderList: seq<string> -> string
    var hashName: Option<string>
    var ensure: Option<Ensure>
    var enable: Option<bool>
    var properties: map<Prop, Value>
    var pending: Hash

    ghost predicate Valid()
      reads this
    {
      && WellFormed(pending)
      && forall p :: p in pending.values ==> Admissible(p, pending.values[p])
    }

    /** `new(interface)` for a parsed record, then attached to its resource by `prefetch`. */
    constructor FromRecord(r: Interface, resourceName: string, desired: map<Prop, Value>, renderList: seq<string> -> string)
      ensures Valid() && pending == EmptyHash
      ensures hashName == Some(r.name) && ensure == Some(r.ensure) && enable == Some(r.enable)
      ensures properties == r.properties
      ensures Exists() <==> r.ensure == EnsurePresent
      ensures this.resourceName == resourceName && this.desired == desired && this.renderList == renderList
    {
      this.resourceName := resourceName;
      this.desired := desired;
      this.renderList := renderList;
      hashName := Some(r.name);
      ensure := Some(r.ensure);
      enable := Some(r.enable);
      properties := r.properties;
      pending := EmptyHash;
    }

    /** A provider for a resource no parsed record matched: its property hash is empty. */
    constructor Unmatched(resourceName: string, desired: map<Prop, Value>, renderList: seq<string> -> string)
      ensures Valid() && pending == EmptyHash
      ensures hashName == None && ensure == None && enable == None && properties == map[]
      ensures !Exists() && Enabled() == None && forall p :: Get(p) == Absent
      ensures this.resourceName == resourceName && this.desired == desired && this.renderList == renderList
    {
      this.resourceName := resourceName;
      this.desired := desired;
      this.renderList := renderList;
      hashName := None;
      ensure := None;
      enable := None;
      properties := map[];
      pending := EmptyHash;
    }

    /** The generated getter: `@property_hash[property] || :absent`. */
    function Get(p: Prop): (v: Value)
      reads this
      ensures p in properties ==> v == properties[p]
      ensures p !in properties ==> v == Absent
    {
      if p in properties then properties[p] else Absent
    }

    /** The generated setter: `@property_flush[property] = value`. */
    method Set(p: Prop, v: Value)
      requires Valid() && Admissible(p, v)
      modifies this`pending
      ensures Valid() && pending == Assign(old(pending), p, v)
    {
      pending := Assign(pending, p, v);
    }

    /** `exists?`. */
    predicate Exists()
      reads this
    {
      ensure == Some(EnsurePresent)
    }

    /** `enabled?`: the stored `:enable` symbol, `None` when the hash has none. */
    function Enabled(): Option<bool>
      reads this
    {
      enable
    }

    /**
     * `create`: enter the interface's context and write, in schema order,
     * every property the resource sets.
     */
    method Create() returns (cmds: seq<string>)
      ensures cmds == Session([InterfaceCommand(resourceName)] + CreateBody(Schema, desired, renderList))
    {
      var body: seq<string> := [];
      var k := 0;
      while k < |Schema|
        invariant 0 <= k <= |Schema|
        invariant body == CreateBody(Schema[..k], desired, renderList)
      {
        var p := Schema[k];
        assert Schema[..k + 1][..k] == Schema[..k];
        if p in desired && desired[p] != Absent && desired[p] != Flag(false) {
          body := body + [Render(p, desired[p], renderList)];
        }
        k := k + 1;
      }
      TakeAll(Schema);
      cmds := ["configure terminal", InterfaceCommand(resourceName)] + body + ["end", "write memory"];
    }

    /** `destroy`: shut the interface down, leave its context and remove it. */
    method Destroy() returns (cmds: seq<string>)
      ensures cmds == Session([InterfaceCommand(resourceName), "shutdown", "exit", "no " + InterfaceCommand(resourceName)])
      ensures |cmds| == 7
    {
      cmds := ["configure terminal", InterfaceCommand(resourceName), "shutdown", "exit",
               "no " + InterfaceCommand(resourceName), "end", "write memory"];
    }

    /** `enable`: `no shutdown`, then the hash records the interface as enabled. */
    method Enable() returns (cmds: seq<string>)
      modifies this`enable
      ensures cmds == Session([InterfaceCommand(resourceName), "no shutdown"])
      ensures enable == Some(true) && Enabled() == Some(true)
    {
      cmds := ["configure terminal", InterfaceCommand(resourceName), "no shutdown", "end", "write memory"];
      enable := Some(true);
    }

    /** `disable`: `shutdown`, then the hash records the interface as disabled. */
    method Disable() returns (cmds: seq<string>)
      modifies this`enable
      ensures cmds == Session([InterfaceCommand(resourceName), "shutdown"])
      ensures enable == Some(false) && Enabled() == Some(false)
    {
      cmds := ["configure terminal", InterfaceCommand(resourceName), "shutdown", "end", "write memory"];
      enable := Some(false);
    }

    /**
     * `flush`: the commands for every pending value, in the order the values
     * were set, inside the context of the interface (named by the hash, or
     * by the resource when the hash has no name). The script is sent only
     * when something is pending; the pending values are then cleared. An
     * entry that raises leaves the values before it written to the hash,
     * sends nothing and clears nothing.
     */
    method Flush() returns (outcome: Result<seq<string>>)
      requires Valid()
      modifies this`properties, this`pending
      ensures Valid()
      ensures properties == FlushRun(old(pending).keys, old(pending).values, old(properties), renderList).hash
      ensures !FlushRun(old(pending).keys, old(pending).values, old(properties), renderList).raised ==>
        forall p :: p in old(pending).values ==> Get(p) == old(pending).values[p]
      ensures !FlushRun(old(pending).keys, old(pending).values, old(properties), renderList).raised ==>
        forall p :: p !in old(pending).values ==> Get(p) == old(Get(p))
      ensures FlushRun(old(pending).keys, old(pending).values, old(properties), renderList).raised ==>
        outcome.Err? && pending == old(pending)
      ensures !FlushRun(old(pending).keys, old(pending).values, old(properties), renderList).raised ==>
        pending == EmptyHash
      ensures !FlushRun(old(pending).keys, old(pending).values, old(properties), renderList).raised && old(pending).keys == [] ==>
        outcome == Ok([])
      ensures !FlushRun(old(pending).keys, old(pending).values, old(properties), renderList).raised && old(pending).keys != [] ==>
        outcome == Ok(Session([InterfaceCommand(old(hashName).GetOr(resourceName))]
                              + FlushRun(old(pending).keys, old(pending).values, old(properties), renderList).lines))
    {
      var name := hashName.GetOr(resourceName);
      var run := RunFlush(pending.keys, pending.values, properties, renderList);
      if !run.raised {
        FlushRunHash(pending.keys, pending.values, properties, renderList);
      }
      properties := run.hash;
      if run.raised {
        outcome := Err("undefined method for a value that is not an array");
      } else if pending.keys == [] {
        outcome := Ok([]);
      } else {
        outcome := Ok(Session([InterfaceCommand(name)] + run.lines));
        pending := EmptyHash;
      }
    }
  }

  /**
   * The `@property_flush.each` loop: the commands for each pending value in
   * turn, writing each value to the hash after its commands; an entry that
   * raises stops the loop.
   */
  method RunFlush(keys: seq<Prop>, values: map<Prop, Value>, hash: map<Prop, Value>, renderList: seq<string> -> string)
    returns (run: Run)
    requires forall p :: p in keys ==> p in values
    ensures run == FlushRun(keys, values, hash, renderList)
  {
    var current := hash;
    var lines: seq<string> := [];
    var k := 0;
    assert keys[k..] == keys;
    while k < |keys|
      invariant 0 <= k <= |keys|
      invariant FlushRun(keys, values, hash, renderList) == Continue(lines, FlushRun(keys[k..], values, current, renderList))
    {
      var p := keys[k];
      var v := values[p];
      assert keys[k..][0] == p && keys[k..][1..] == keys[k + 1..];
      if v != Flag(false) && v != Absent && v != Flag(true) && KindOf(p) == ArrayKind
         && !(p in current && current[p].List? && v.List?)
      {
        return Run([], current, true);
      }
      var more := ChangeCommands(p, v, current, renderList);
      ContinueContinue(lines, more, FlushRun(keys[k + 1..], values, current[p := v], renderList));
      lines := lines + more;
      current := current[p := v];
      k := k + 1;
    }
    assert keys[k..] == [];
    run := Run(lines, current, false);
  }

  /** The body of the loop for one pending value that does not raise. */
  method ChangeCommands(p: Prop, v: Value, hash: map<Prop, Value>, renderList: seq<string> -> string) returns (lines: seq<string>)
    requires !Raises(p, v, hash)
    ensures lines == ChangeLines(p, v, hash, renderList)
  {
    if v == Flag(false) || v == Absent {
      lines := ["no " + Template(p, None)];
    } else if v == Flag(true) {
      lines := [Template(p, None)];
    } else if KindOf(p) == ArrayKind {
      lines := ArrayCommands(p, hash[p].items, v.items);
    } else {
      lines := [Render(p, v, renderList)];
    }
  }

  /**
   * The array branch of `flush`: `no` for each current element that is no
   * longer wanted, then every wanted element.
   */
  method ArrayCommands(p: Prop, current: seq<string>, wanted: seq<string>) returns (lines: seq<string>)
    ensures lines == RemoveLines(p, Minus(current, wanted)) + AddLines(p, wanted)
  {
    var removals := RemoveCommands(p, Minus(current, wanted));
    var additions := AddCommands(p, wanted);
    lines := removals + additions;
  }

  /** `(@property_hash[property] - v).each`: one `no` command per element. */
  method RemoveCommands(p: Prop, xs: seq<string>) returns (lines: seq<string>)
    ensures lines == RemoveLines(p, xs)
  {
    lines := [];
    var j := 0;
    while j < |xs|
      invariant 0 <= j <= |xs|
      invariant lines == RemoveLines(p, xs[..j])
    {
      TakeNext(xs, j);
      RemoveLinesConcat(p, xs[..j], [xs[j]]);
      lines := lines + ["no " + Template(p, Some(xs[j]))];
      j := j + 1;
    }
    TakeAll(xs);
  }

  /** `v.each`: one command per element. */
  method AddCommands(p: Prop, xs: seq<string>) returns (lines: seq<string>)
    ensures lines == AddLines(p, xs)
  {
    lines := [];
    var j := 0;
    while j < |xs|
      invariant 0 <= j <= |xs|
      invariant lines == AddLines(p, xs[..j])
    {
      TakeNext(xs, j);
      AddLinesConcat(p, xs[..j], [xs[j]]);
      lines := lines + [Template(p, Some(xs[j]))];
      j := j + 1;
    }
    TakeAll(xs);
  }

  lemma {:induction false} RemoveLinesConcat(p: Prop, a: seq<string>, b: seq<string>)
    ensures RemoveLines(p, a + b) == RemoveLines(p, a) + RemoveLines(p, b)
  {
    if a == [] {
      assert a + b == b;
    } else {
      assert (a + b)[1..] == a[1..] + b;
      RemoveLinesConcat(p, a[1..], b);
    }
  }

  lemma {:induction false} AddLinesConcat(p: Prop, a: seq<string>, b: seq<string>)
    ensures AddLines(p, a + b) == AddLines(p, a) + AddLines(p, b)
  {
    if a == [] {
      assert a + b == b;
    } else {
      assert (a + b)[1..] == a[1..] + b;
      AddLinesConcat(p, a[1..], b);
    }
  }

  /**
   * `self.prefetch`: a resource gets a parsed record exactly when one is
   * named after it, and then the first such.
   */
  function PrefetchRecords(records: seq<Interface>, resources: set<string>): (m: map<string, Interface>)
    ensures forall n :: n in m <==> n in resources && exists k :: 0 <= k < |records| && records[k].name == n
    ensures forall n :: n in m ==> m[n].name == n && exists k ::
      0 <= k < |records| && records[k] == m[n] && forall j :: 0 <= j < k ==> records[j].name != n
  {
    Prefetch.Pick(records, (r: Interface) => r.name, resources)
  }
}
