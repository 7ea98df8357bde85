/** The classification engine of al/common/classification.py. */
module Markings {
  // Its definition tables, the parser of markings and the normaliser that prints them.

  import opened Prelude
  import opened Text
  import opened Sorting

  const INVALID_LVL: int := 10001

  /** The tables of one kind of name: long to short, short to long, alias to shorts. */
  datatype Names = Names(lts: map<string, string>, stl: map<string, string>, aliases: map<string, seq<string>>)

  datatype Params = Params(requireLvl: int, requiredGroup: bool, requireGroup: Option<string>,
                           limitedTo: Option<string>, solitary: Option<string>)

  const NO_PARAMS := Params(0, false, None, None, None)

  /** `order` is the order in which the elements of a set happen to be listed. */
  datatype Definition = Definition(
    levelIndex: map<string, int>, levelShort: map<int, string>, levelLong: map<string, string>,
    levelLts: map<string, string>, levelAliases: map<string, string>,
    req: Names, groups: Names, subs: Names, autoGroups: seq<string>, autoSubs: seq<string>,
    params: map<string, Params>, order: set<string> -> seq<string>)

  // ---- Names ---------------------------------------------------------------------------------

  predicate Known(t: Names, p: string) { p in t.lts || p in t.stl }

  predicate Named(t: Names, p: string) { Known(t, p) || p in t.aliases }

  /** The short name behind a short or long one. */
  function Canon(t: Names, p: string): string {
    if p in t.lts then t.lts[p] else p
  }

  function CanonSet(t: Names, xs: set<string>): set<string> {
    set x | x in xs :: Canon(t, x)
  }

  /** The short names a piece of a marking stands for. */
  function Shorts(t: Names, p: string): set<string> {
    if p in t.lts then {t.lts[p]}
    else if p in t.stl then {p}
    else if p in t.aliases then Set(t.aliases[p])
    else {}
  }

  /** How a short name is displayed. */
  function Display(t: Names, short: string, long: bool): string {
    if long && short in t.stl then t.stl[short] else short
  }

  function DisplaySet(t: Names, shorts: set<string>, long: bool): set<string> {
    set s | s in shorts :: Display(t, s, long)
  }

  function ParamsOf(d: Definition, p: string): Params {
    Get(d.params, p, NO_PARAMS)
  }

  /** sorted(list(s)) */
  function Listing(d: Definition, s: set<string>): seq<string> {
    Sorted(d.order(s))
  }

  // ---- Parsing -------------------------------------------------------------------------------

  /** What a marking says, by short names. */
  datatype Parts = Parts(level: int, req: set<string>, groups: set<string>, subs: set<string>)

  function LevelNamed(d: Definition, name: string): Option<int> {
    if name in d.levelIndex then Some(d.levelIndex[name])
    else if name in d.levelLts && d.levelLts[name] in d.levelIndex then Some(d.levelIndex[d.levelLts[name]])
    else if name in d.levelAliases && d.levelAliases[name] in d.levelIndex then Some(d.levelIndex[d.levelAliases[name]])
    else None
  }

  /** None: the level is unknown, which raises InvalidClassification. */
  function LevelOf(d: Definition, c: string): Option<int> {
    LevelNamed(d, SplitDouble(Upper(c))[0])
  }

  function ShortsOfAll(t: Names, pieces: set<string>): set<string> {
    set p, s | p in pieces && s in Shorts(t, p) :: s
  }

  function ReqOf(d: Definition, c: string): set<string> {
    ShortsOfAll(d.req, Pieces(Upper(c)))
  }

  /** The names in one section, read as a list of groups. */
  function GroupPieces(section: string): set<string> {
    set x, p | x in SplitAt(RemoveRel(section), ',') && p in SplitAt(Strip(x), '/') :: p
  }

  function AllGroupPieces(sections: seq<string>): set<string> {
    if sections == [] then {} else GroupPieces(sections[0]) + AllGroupPieces(sections[1..])
  }

  function GroupsOf(d: Definition, c: string): set<string> {
    ShortsOfAll(d.groups, AllGroupPieces(SplitDouble(Upper(c))))
  }

  function SubsOf(d: Definition, c: string): set<string> {
    ShortsOfAll(d.subs, set p | p in AllGroupPieces(SplitDouble(Upper(c))) && !Named(d.groups, p))
  }

  function Parse(d: Definition, c: string): Option<Parts> {
    match LevelOf(d, c)
    case None => None
    case Some(level) => Some(Parts(level, ReqOf(d, c), GroupsOf(d, c), SubsOf(d, c)))
  }

  // ---- Normalising ---------------------------------------------------------------------------

  /** Step 1: the highest level any required name asks for. */
  function RequiredLevel(d: Definition, req: seq<string>): int {
    if req == [] then 0
    else Max(RequiredLevel(d, req[..|req| - 1]), ParamsOf(d, req[|req| - 1]).requireLvl)
  }

  /** Step 2: the required names shown with the groups. */
  function RequiredGroups(d: Definition, req: seq<string>): seq<string> {
    if req == [] then []
    else
      var r := req[|req| - 1];
      RequiredGroups(d, req[..|req| - 1]) + if ParamsOf(d, r).requiredGroup then [r] else []
  }

  function PlainRequired(d: Definition, req: seq<string>): seq<string> {
    d.order(Set(req) - Set(RequiredGroups(d, req)))
  }

  /** Steps 3 and 5: the names selected automatically as soon as there is any. */
  function WithAuto(d: Definition, names: seq<string>, auto: seq<string>, skip: bool): seq<string> {
    if |names| > 0 && |auto| > 0 && !skip then Listing(d, Set(names) + Set(auto)) else names
  }

  /** Step 4: one subgroup's demands on the groups. */
  function Demand(d: Definition, sub: string, groups: seq<string>): seq<string> {
    var p := ParamsOf(d, sub);
    var more := if p.requireGroup.Some? then groups + [p.requireGroup.value] else groups;
    if p.limitedTo.None? then more
    else if p.limitedTo.value in more then [p.limitedTo.value]
    else []
  }

  function Demands(d: Definition, subs: seq<string>, groups: seq<string>): seq<string> {
    if subs == [] then groups
    else Demand(d, subs[|subs| - 1], Demands(d, subs[..|subs| - 1], groups))
  }

  /** Step 7: an alias that stands for exactly these groups, the last one listed if there are several. */
  function Compressed(d: Definition, aliases: seq<string>, groups: seq<string>): seq<string> {
    if aliases == [] then groups
    else
      var before := Compressed(d, aliases[..|aliases| - 1], groups);
      var a := aliases[|aliases| - 1];
      var values := Get(d.groups.aliases, a, []);
      if |values| > 1 && Sorted(values) == before then [a] else before
  }

  /** Steps 6 and 7: how the groups are shown. */
  datatype Token = NoGroup | Alone(name: string) | RelTo(names: seq<string>)

  function GroupToken(d: Definition, groups: seq<string>, long: bool): Token {
    if groups == [] then NoGroup
    else if |groups| == 1 then
      var shown := ParamsOf(d, groups[0]).solitary.GetOr(groups[0]);
      if shown != groups[0] then Alone(shown) else RelTo(groups)
    else RelTo(Sorted(if long then groups else Compressed(d, d.order(d.groups.aliases.Keys), groups)))
  }

  /** ", ".join(names) */
  function JoinComma(names: seq<string>): string {
    if names == [] then ""
    else if |names| == 1 then names[0]
    else names[0] + ", " + JoinComma(names[1..])
  }

  function TokenText(t: Token): string {
    match t
    case NoGroup => ""
    case Alone(name) => name
    case RelTo(names) => REL + JoinComma(names)
  }

  function TokenTexts(t: Token): seq<string> {
    if t.NoGroup? then [] else [TokenText(t)]
  }

  /** The lists a marking is printed from. */
  datatype Draft = Draft(level: int, req: seq<string>, groups: seq<string>, subs: seq<string>)

  /** The lists after steps 1, 3, 4 and 5. */
  function Settled(d: Definition, l: Draft, skip: bool): Draft {
    var subs := WithAuto(d, l.subs, d.autoSubs, skip);
    Draft(Max(l.level, RequiredLevel(d, l.req)), l.req,
          WithAuto(d, Demands(d, subs, l.groups), d.autoGroups, skip), subs)
  }

  function LevelText(d: Definition, level: int, long: bool): Option<string> {
    if level !in d.levelShort then None
    else
      var short := d.levelShort[level];
      if !long then Some(short)
      else if short in d.levelLong then Some(d.levelLong[short])
      else None
  }

  function Section(tokens: seq<string>): seq<string> {
    if tokens == [] then [] else [JoinWith(tokens, '/')]
  }

  /** The sections a marking consists of, the level left aside. */
  function Body(d: Definition, l: Draft, long: bool): seq<string> {
    Section(PlainRequired(d, l.req))
    + Section(Sorted(RequiredGroups(d, l.req)) + TokenTexts(GroupToken(d, l.groups, long)) + Sorted(l.subs))
  }

  /** None: there is no such level, which raises InvalidClassification. */
  function NormalText(d: Definition, l: Draft, long: bool, skip: bool): Option<string> {
    var s := Settled(d, l, skip);
    match LevelText(d, s.level, long)
    case None => None
    case Some(name) => Some(JoinDouble([name] + Body(d, s, long)))
  }

  /** The sorted lists the parser hands over. */
  function Listed(d: Definition, p: Parts, long: bool): Draft {
    Draft(p.level, Listing(d, DisplaySet(d.req, p.req, long)),
          Listing(d, DisplaySet(d.groups, p.groups, long)), Listing(d, DisplaySet(d.subs, p.subs, long)))
  }

  function Normalize(d: Definition, c: string, long: bool, skip: bool): Option<string> {
    match Parse(d, c)
    case None => None
    case Some(p) => NormalText(d, Listed(d, p, long), long, skip)
  }

  // ---- Well-formed definitions ---------------------------------------------------------------

  predicate GoodName(s: string) {
    Trimmed(s) && IsUpper(s) && Lacks(s, '/') && Lacks(s, ',') && RelFree(s)
  }

  ghost predicate GoodTable(t: Names) {
    && (forall l | l in t.lts :: GoodName(l) && t.lts[l] in t.stl && t.stl[t.lts[l]] == l)
    && (forall s | s in t.stl :: GoodName(s) && t.stl[s] in t.lts && t.lts[t.stl[s]] == s && (s in t.lts ==> t.lts[s] == s))
    && (forall a | a in t.aliases :: GoodName(a) && !Known(t, a) && forall x | x in t.aliases[a] :: x in t.stl)
  }

  predicate LevelName(d: Definition, p: string) {
    p in d.levelIndex || p in d.levelLts || p in d.levelAliases
  }

  ghost predicate GoodLevel(d: Definition, i: int) {
    && 0 <= i <= INVALID_LVL && i in d.levelShort
    && var s := d.levelShort[i];
    && GoodName(s) && LevelName(d, s) && LevelNamed(d, s) == Some(i)
    && s in d.levelLong
    && var l := d.levelLong[s];
    && GoodName(l) && LevelName(d, l) && LevelNamed(d, l) == Some(i)
  }

  ghost predicate GoodLevels(d: Definition) {
    && (forall i | i in d.levelShort :: GoodLevel(d, i))
    && (forall p :: LevelNamed(d, p).Some? ==> LevelNamed(d, p).value in d.levelShort)
    && INVALID_LVL in d.levelShort && d.levelShort[INVALID_LVL] == "INV" && d.levelLong["INV"] == "INVALID"
  }

  /** No name belongs to two categories. */
  ghost predicate Disjoint(d: Definition) {
    && (forall p :: LevelName(d, p) ==> !Named(d.req, p) && !Named(d.groups, p) && !Named(d.subs, p))
    && (forall p :: Named(d.req, p) ==> !Named(d.groups, p) && !Named(d.subs, p))
    && (forall p :: Named(d.groups, p) ==> !Named(d.subs, p))
  }

  ghost predicate SameParams(d: Definition, t: Names) {
    forall s | s in t.stl :: ParamsOf(d, s) == ParamsOf(d, t.stl[s])
  }

  ghost predicate GoodParams(d: Definition) {
    && SameParams(d, d.req) && SameParams(d, d.groups) && SameParams(d, d.subs)
    && forall p :: GoodParam(d, p, ParamsOf(d, p))
  }

  /** Demanded levels and groups exist; a solitary name is an alias of that group only. */
  predicate GoodParam(d: Definition, p: string, q: Params) {
    && (q.requireLvl <= 0 || q.requireLvl in d.levelShort)
    && (q.requireGroup.Some? ==> q.requireGroup.value in d.groups.stl)
    && (q.limitedTo.Some? ==> q.limitedTo.value in d.groups.stl)
    && (Known(d.groups, p) && q.solitary.Some? ==>
          Get(d.groups.aliases, q.solitary.value, []) == [Canon(d.groups, p)])
  }

  ghost predicate WellFormed(d: Definition) {
    && GoodTable(d.req) && GoodTable(d.groups) && GoodTable(d.subs)
    && GoodLevels(d) && Disjoint(d) && GoodParams(d)
    && (forall g | g in d.autoGroups :: g in d.groups.stl)
    && (forall s | s in d.autoSubs :: s in d.subs.stl)
    && forall s :: Lists(d.order(s), s)
  }
}
