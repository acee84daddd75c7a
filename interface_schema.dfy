/**
 * The interface provider's `@resource_map`: for each managed property of a
 * Quagga interface, the line that reports it in `show running-config`, its
 * value type, the command template that sets it, and its default.
 */
module InterfaceSchema {
  import opened Common
  import opened Text

  /** The properties of the table, in its declaration order. */
  datatype Prop = Description | IpAddress | Bandwidth | LinkDetect

  /** The table's `:type` entries. */
  datatype Kind = StringKind | ArrayKind | FixnumKind | BooleanKind

  /**
   * A property value as the provider stores it: the `:absent` marker, the
   * symbols `:true`/`:false` (both truthy in Ruby), a string, an integer or
   * an array of strings.
   */
  datatype Value = Absent | Flag(on: bool) | Str(text: string) | Number(n: int) | List(items: seq<string>)

  /** `@resource_map.each` visits the properties in this order. */
  const Schema: seq<Prop> := [Description, IpAddress, Bandwidth, LinkDetect]

  function KindOf(p: Prop): Kind {
    match p
    case Description => StringKind
    case IpAddress => ArrayKind
    case Bandwidth => FixnumKind
    case LinkDetect => BooleanKind
  }

  /** The table's `:default` entries. */
  function Default(p: Prop): Value {
    match p
    case Description => Absent
    case IpAddress => List([])
    case Bandwidth => Absent
    case LinkDetect => Flag(false)
  }

  /** The fixed leading part of each property's `:regexp`. */
  function Pattern(p: Prop): seq<Tok> {
    match p
    case Description => [Sp, Lit("description"), Sp]
    case IpAddress => [Sp, Lit("ip"), Sp, Lit("address"), Sp]
    case Bandwidth => [Sp, Lit("bandwidth"), Sp]
    case LinkDetect => [Sp, Lit("link-detect")]
  }

  /**
   * Whether the property's `:regexp` matches `line`, and with which capture:
   * `None` when it does not match, `Some(None)` when it matches without a
   * capture group (`link-detect`), `Some(Some(v))` when it captures `v`.
   */
  function Match(p: Prop, line: string): (m: Option<Option<string>>)
    ensures m.Some? ==> Strip(line, Pattern(p)).Some?
    ensures m.Some? ==> (m.value.None? <==> p == LinkDetect)
  {
    match Strip(line, Pattern(p))
    case None => None
    case Some(rest) =>
      match p
      case Description => Some(Some(rest))
      case IpAddress => Some(Some(rest))
      case Bandwidth => if AllDigits(rest) then Some(Some(rest)) else None
      case LinkDetect => if rest == "" then Some(None) else None
  }

  /**
   * The ERB `:template` of the property rendered with `value` bound to `arg`
   * (`None` is `nil`, which `<%= %>` prints as nothing).
   */
  function Template(p: Prop, arg: Option<string>): string {
    match p
    case Description => if arg.None? then "description" else "description " + arg.value
    case IpAddress => "ip address " + arg.GetOr("")
    case Bandwidth => if arg.None? then "bandwidth" else "bandwidth " + arg.value
    case LinkDetect => "link-detect"
  }

  /** The values a property can be given: `:absent` or one of its own type. */
  predicate Admissible(p: Prop, v: Value) {
    match p
    case Description => v.Absent? || v.Str?
    case IpAddress => v.Absent? || v.List?
    case Bandwidth => v.Absent? || v.Number?
    case LinkDetect => v.Absent? || v.Flag?
  }

  /** Every descriptor's default is a value of its own type. */
  lemma DefaultsAdmissible(p: Prop)
    ensures Admissible(p, Default(p))
    ensures (KindOf(p) == ArrayKind) <==> Default(p).List?
  {
  }

  /**
   * No line is matched by two descriptors: the words after the leading `\s`
   * differ in their first letter, so the `break` after the first match never
   * hides a second one.
   */
  lemma MatchesDisjoint(p: Prop, q: Prop, line: string)
    requires p != q
    ensures !(Match(p, line).Some? && Match(q, line).Some?)
  {
    MatchedLetter(p, line);
    MatchedLetter(q, line);
  }

  /** The first letter of the word that follows the leading `\s` of each pattern. */
  function Letter(p: Prop): char {
    match p
    case Description => 'd'
    case IpAddress => 'i'
    case Bandwidth => 'b'
    case LinkDetect => 'l'
  }

  lemma MatchedLetter(p: Prop, line: string)
    ensures Match(p, line).Some? ==> |line| > 1 && line[1] == Letter(p)
  {
    if Match(p, line).Some? {
      StripHead(line, Pattern(p));
    }
  }

  /** The line `show running-config` prints for a property with argument `arg`. */
  function ConfigLine(p: Prop, arg: string): string {
    Spell(Pattern(p)) + arg
  }

  /** Each descriptor recognises the line its own pattern spells, capturing `arg`. */
  lemma MatchConfigLine(p: Prop, arg: string)
    requires p == Bandwidth ==> AllDigits(arg)
    requires p == LinkDetect ==> arg == ""
    ensures Match(p, ConfigLine(p, arg)) == if p == LinkDetect then Some(None) else Some(Some(arg))
  {
    StripSpell(Pattern(p), arg);
  }
}
