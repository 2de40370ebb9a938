/// The processing rules: what a save accepts, and which default a file runs.
module Rulesets {
  import opened Common
  import opened Text
  import opened Contract
  import S = ProcessingState

  const ANY_MEDIA_TYPE := "*"
  const MAX_RULESET_NAME_BYTES: nat := 255
  const MAX_RULESET_STEPS: nat := 32
  const MAX_RUNNER_TYPE_BYTES: nat := 128
  const MAX_MEDIA_TYPE_BYTES: nat := 255

  const INVALID_RULESET := "INVALID_RULESET"
  const INVALID_MEDIA_TYPE := "INVALID_MEDIA_TYPE"
  const RULESET_NAME_TAKEN := "RULESET_NAME_TAKEN"
  const DEFAULT_ALREADY_SET := "DEFAULT_ALREADY_SET"
  const RULESET_NOT_FOUND := "RULESET_NOT_FOUND"
  const RULESET_MISMATCH := "RULESET_MISMATCH"
  const NOTHING_TO_CHANGE := "NOTHING_TO_CHANGE"

  datatype Rule = Rule(name: string, trigger: S.Trigger, mediaTypes: seq<string>, steps: seq<Step>, isDefault: bool)

  type Table = map<Uuid, Rule>

  // ---- media types and patterns ----

  function LowerChar(c: char): char {
    if 'A' <= c <= 'Z' then c - 'A' + 'a' else c
  }

  /// `to_ascii_lowercase`, and the store's `lower` on ASCII names.
  function Lower(s: string): string {
    seq(|s|, i requires 0 <= i < |s| => LowerChar(s[i]))
  }

  predicate IsTokenChar(c: char) {
    'a' <= c <= 'z' || 'A' <= c <= 'Z' || '0' <= c <= '9' || c in "!#$&-^_.+"
  }

  predicate IsToken(s: string) {
    s != "" && forall c :: c in s ==> IsTokenChar(c)
  }

  /// Splits at the first slash.
  function SplitOnce(s: string): Option<(string, string)> {
    if s == "" then None
    else if s[0] == '/' then Some(("", s[1..]))
    else
      var rest := SplitOnce(s[1..]);
      if rest.None? then None else Some(([s[0]] + rest.value.0, rest.value.1))
  }

  predicate IsMediaType(raw: string) {
    && Bytes(raw) <= MAX_MEDIA_TYPE_BYTES
    && SplitOnce(raw).Some? && IsToken(SplitOnce(raw).value.0) && IsToken(SplitOnce(raw).value.1)
  }

  function StripSuffix(s: string, suffix: string): Option<string> {
    if |suffix| <= |s| && s[|s| - |suffix|..] == suffix then Some(s[..|s| - |suffix|]) else None
  }

  predicate IsPattern(pattern: string) {
    || pattern == ANY_MEDIA_TYPE
    || (StripSuffix(pattern, "/*").Some? && IsMediaType(StripSuffix(pattern, "/*").value + "/x"))
    || IsMediaType(pattern)
  }

  /// The patterns in lower case, each kept where it first stands.
  function Patterns(mediaTypes: seq<string>): seq<string> {
    if mediaTypes == [] then []
    else
      var before, last := Patterns(mediaTypes[..|mediaTypes| - 1]), Lower(mediaTypes[|mediaTypes| - 1]);
      if last in before then before else before + [last]
  }

  /// Each pattern once, and no other.
  lemma {:induction false} PatternsAreEachOnce(mediaTypes: seq<string>)
    ensures Distinct(Patterns(mediaTypes))
    ensures forall i :: 0 <= i < |mediaTypes| ==> Lower(mediaTypes[i]) in Patterns(mediaTypes)
    ensures forall pattern :: pattern in Patterns(mediaTypes) ==> exists i :: 0 <= i < |mediaTypes| && pattern == Lower(mediaTypes[i])
  {
    if mediaTypes != [] {
      PatternsAreEachOnce(mediaTypes[..|mediaTypes| - 1]);
      assert Lower(mediaTypes[|mediaTypes| - 1]) in Patterns(mediaTypes);
    }
  }

  method ValidateMediaTypes(mediaTypes: seq<string>) returns (r: Result<seq<string>, string>)
    ensures r.Ok? <==> mediaTypes != [] && forall i :: 0 <= i < |mediaTypes| ==> IsPattern(mediaTypes[i])
    ensures r.Ok? ==> r.value == Patterns(mediaTypes)
    ensures r.Err? ==> r.error == if mediaTypes == [] then INVALID_RULESET else INVALID_MEDIA_TYPE
  {
    if mediaTypes == [] {
      return Err(INVALID_RULESET);
    }
    var out := [];
    for n := 0 to |mediaTypes|
      invariant forall i :: 0 <= i < n ==> IsPattern(mediaTypes[i])
      invariant out == Patterns(mediaTypes[..n])
    {
      assert mediaTypes[..n + 1][..n] == mediaTypes[..n];
      if !IsPattern(mediaTypes[n]) {
        return Err(INVALID_MEDIA_TYPE);
      }
      var pattern := Lower(mediaTypes[n]);
      if pattern !in out {
        out := out + [pattern];
      }
    }
    assert mediaTypes[..|mediaTypes|] == mediaTypes;
    return Ok(out);
  }

  predicate StepsAreSound(steps: seq<Step>) {
    && 1 <= |steps| <= MAX_RULESET_STEPS
    && forall i :: 0 <= i < |steps| ==> RunnerTypeIsSound(steps[i].runnerType)
  }

  predicate RunnerTypeIsSound(name: string) {
    && name != "" && Bytes(name) <= MAX_RUNNER_TYPE_BYTES
    && forall c :: c in name ==> 'a' <= c <= 'z' || 'A' <= c <= 'Z' || '0' <= c <= '9' || c == '-' || c == '_' || c == '.'
  }

  // ---- matching ----

  /// How well a pattern matches: 0 exactly, 1 by its type, 2 as any.
  function MatchRank(pattern: string, mediaType: string): Option<nat> {
    if pattern == ANY_MEDIA_TYPE then Some(2)
    else if StripSuffix(pattern, "/*").Some? then
      var split := SplitOnce(mediaType);
      if split.Some? && split.value.0 == StripSuffix(pattern, "/*").value then Some(1) else None
    else if pattern == mediaType then Some(0)
    else None
  }

  /// The best rank among a rule's patterns.
  function BestMatch(patterns: seq<string>, mediaType: string): (best: Option<nat>)
    ensures best.Some? ==> exists i :: 0 <= i < |patterns| && MatchRank(patterns[i], mediaType) == best
    ensures forall i :: 0 <= i < |patterns| && MatchRank(patterns[i], mediaType).Some? ==>
              best.Some? && best.value <= MatchRank(patterns[i], mediaType).value
  {
    if patterns == [] then None
    else
      var before, last := BestMatch(patterns[..|patterns| - 1], mediaType), MatchRank(patterns[|patterns| - 1], mediaType);
      if before.Some? && (last.None? || before.value <= last.value) then before else last
  }

  /// A rank and a media type tell the pattern.
  lemma RankTellsPattern(p: string, q: string, mediaType: string)
    requires MatchRank(p, mediaType).Some? && MatchRank(p, mediaType) == MatchRank(q, mediaType)
    ensures p == q
  {
    if MatchRank(p, mediaType) == Some(1) {
      var kind := SplitOnce(mediaType).value.0;
      assert p == p[..|p| - 2] + p[|p| - 2..] && q == q[..|q| - 2] + q[|q| - 2..];
      assert p == kind + "/*" == q;
    }
  }

  /// A media type is matched by itself first, then by its type's wildcard, then by
  /// the pattern of any; by nothing else.
  lemma ThreePatternsMatch(mediaType: string)
    requires IsMediaType(mediaType)
    ensures var kind := SplitOnce(mediaType).value.0;
            && MatchRank(mediaType, mediaType) == Some(0)
            && MatchRank(kind + "/*", mediaType) == Some(1)
            && MatchRank(ANY_MEDIA_TYPE, mediaType) == Some(2)
            && forall pattern :: MatchRank(pattern, mediaType).Some? ==>
                 pattern == mediaType || pattern == kind + "/*" || pattern == ANY_MEDIA_TYPE
  {
    var (kind, subtype) := SplitOnce(mediaType).value;
    SplitJoins(mediaType);
    assert kind[0] in kind && subtype[|subtype| - 1] in subtype;
    assert mediaType[0] == kind[0] && mediaType[|mediaType| - 1] == subtype[|subtype| - 1];
    assert (kind + "/*")[|kind|..] == "/*" && (kind + "/*")[..|kind|] == kind;
    forall pattern | MatchRank(pattern, mediaType).Some?
      ensures pattern == mediaType || pattern == kind + "/*" || pattern == ANY_MEDIA_TYPE
    {
      if MatchRank(pattern, mediaType) == Some(1) {
        RankTellsPattern(pattern, kind + "/*", mediaType);
      }
    }
  }

  lemma {:induction false} SplitJoins(s: string)
    requires SplitOnce(s).Some?
    ensures s == SplitOnce(s).value.0 + "/" + SplitOnce(s).value.1
  {
    if s[0] != '/' {
      SplitJoins(s[1..]);
      var rest := SplitOnce(s[1..]).value;
      assert s == [s[0]] + (rest.0 + "/" + rest.1);
      assert s == ([s[0]] + rest.0) + "/" + rest.1;
    }
  }

  // ---- the defaults of a trigger ----

  predicate Overlap(a: seq<string>, b: seq<string>) {
    exists pattern :: pattern in a && pattern in b
  }

  predicate DefaultOf(rule: Rule, trigger: S.Trigger) {
    rule.isDefault && rule.trigger == trigger
  }

  /// No two defaults of one trigger share a pattern.
  ghost predicate Disjoint(table: Table) {
    forall a, b :: a in table && b in table && a != b && DefaultOf(table[a], table[b].trigger) && table[b].isDefault ==>
      !Overlap(table[a].mediaTypes, table[b].mediaTypes)
  }

  /// The store's question: a default of the trigger, other than `except` (the nil
  /// id when none is given), shares a pattern.
  predicate Clashes(table: Table, trigger: S.Trigger, patterns: seq<string>, except: Option<Uuid>) {
    exists id :: id in table && id != except.GetOr(Nil) && DefaultOf(table[id], trigger) && Overlap(table[id].mediaTypes, patterns)
  }

  predicate NameTaken(table: Table, name: string, except: Option<Uuid>) {
    exists id :: id in table && id != except.GetOr(Nil) && Lower(table[id].name) == Lower(name)
  }

  function ValidName(raw: string): Option<string> {
    var name := Trim(raw);
    if name == "" || Bytes(name) > MAX_RULESET_NAME_BYTES then None else Some(name)
  }

  /// What a create answers, in the order it looks.
  function CreateRefusal(table: Table, rawName: string, trigger: S.Trigger, mediaTypes: seq<string>, steps: seq<Step>,
                         isDefault: bool): Option<string>
  {
    if ValidName(rawName).None? then Some(INVALID_RULESET)
    else if mediaTypes == [] then Some(INVALID_RULESET)
    else if !(forall i :: 0 <= i < |mediaTypes| ==> IsPattern(mediaTypes[i])) then Some(INVALID_MEDIA_TYPE)
    else if !StepsAreSound(steps) then Some(INVALID_RULESET)
    else if NameTaken(table, ValidName(rawName).value, None) then Some(RULESET_NAME_TAKEN)
    else if isDefault && Clashes(table, trigger, Patterns(mediaTypes), None) then Some(DEFAULT_ALREADY_SET)
    else None
  }

  /// The rule an update asks for, when what it names is valid.
  function Asked(rule: Rule, rawName: Option<string>, mediaTypes: Option<seq<string>>, newSteps: Option<seq<Step>>,
                 newDefault: Option<bool>): Rule
  {
    Rule(if rawName.Some? then ValidName(rawName.value).GetOr(rule.name) else rule.name, rule.trigger,
         if mediaTypes.Some? then Patterns(mediaTypes.value) else rule.mediaTypes,
         newSteps.GetOr(rule.steps), newDefault.GetOr(rule.isDefault))
  }

  /// Why what an update names is not valid.
  function Unsound(rule: Rule, rawName: Option<string>, mediaTypes: Option<seq<string>>, newSteps: Option<seq<Step>>): Option<string> {
    if rawName.Some? && ValidName(rawName.value).None? then Some(INVALID_RULESET)
    else if mediaTypes == Some([]) then Some(INVALID_RULESET)
    else if mediaTypes.Some? && !(forall i :: 0 <= i < |mediaTypes.value| ==> IsPattern(mediaTypes.value[i])) then
      Some(INVALID_MEDIA_TYPE)
    else if !StepsAreSound(newSteps.GetOr(rule.steps)) then Some(INVALID_RULESET)
    else None
  }

  /// What an update answers, in the order it looks.
  function UpdateRefusal(table: Table, id: Uuid, rawName: Option<string>, mediaTypes: Option<seq<string>>,
                         newSteps: Option<seq<Step>>, newDefault: Option<bool>): Option<string>
  {
    if id !in table then Some(RULESET_NOT_FOUND)
    else if Unsound(table[id], rawName, mediaTypes, newSteps).Some? then Unsound(table[id], rawName, mediaTypes, newSteps)
    else
      var asked := Asked(table[id], rawName, mediaTypes, newSteps, newDefault);
      if asked == table[id] then Some(NOTHING_TO_CHANGE)
      else if NameTaken(table, asked.name, Some(id)) then Some(RULESET_NAME_TAKEN)
      else if asked.isDefault && Clashes(table, asked.trigger, asked.mediaTypes, Some(id)) then Some(DEFAULT_ALREADY_SET)
      else None
  }

  // ---- what a save answers, in terms of what it is given ----

  /// The same letter, whatever its case; ASCII letters only.
  predicate SameLetter(a: char, b: char) {
    || a == b
    || ('A' <= a <= 'Z' && b as int == a as int + 32)
    || ('A' <= b <= 'Z' && a as int == b as int + 32)
  }

  predicate SameText(a: string, b: string) {
    |a| == |b| && forall i :: 0 <= i < |a| ==> SameLetter(a[i], b[i])
  }

  lemma LowerSays(a: string, b: string)
    ensures Lower(a) == Lower(b) <==> SameText(a, b)
    ensures SameText(Lower(a), a) && forall c :: c in Lower(a) ==> !('A' <= c <= 'Z')
  {
    forall i | 0 <= i < |a| && i < |b|
      ensures Lower(a)[i] == Lower(b)[i] <==> SameLetter(a[i], b[i])
    {
    }
    if Lower(a) == Lower(b) {
      assert |Lower(a)| == |Lower(b)|;
      assert forall i :: 0 <= i < |a| ==> Lower(a)[i] == Lower(b)[i];
    }
    if SameText(a, b) {
      assert forall i :: 0 <= i < |a| ==> Lower(a)[i] == Lower(b)[i];
    }
  }

  /// A name is taken by another rule that has it, in any case.
  lemma NameTakenSays(table: Table, name: string, except: Option<Uuid>)
    ensures NameTaken(table, name, except) <==>
              exists id :: id in table && !(except.Some? && id == except.value) && !(except.None? && id == Nil)
                           && SameText(table[id].name, name)
  {
    forall id | id in table
      ensures Lower(table[id].name) == Lower(name) <==> SameText(table[id].name, name)
    {
      LowerSays(table[id].name, name);
    }
  }

  /// A default clashes with another default of its trigger on a pattern of both.
  lemma ClashesSays(table: Table, trigger: S.Trigger, patterns: seq<string>, except: Option<Uuid>)
    ensures Clashes(table, trigger, patterns, except) <==>
              exists id, pattern :: id in table && !(except.Some? && id == except.value) && !(except.None? && id == Nil)
                                    && table[id].isDefault && table[id].trigger == trigger
                                    && pattern in table[id].mediaTypes && pattern in patterns
  {
    if Clashes(table, trigger, patterns, except) {
      var id :| id in table && id != except.GetOr(Nil) && DefaultOf(table[id], trigger) && Overlap(table[id].mediaTypes, patterns);
      var pattern :| pattern in table[id].mediaTypes && pattern in patterns;
    }
  }

  lemma ValidNameSays(raw: string)
    ensures ValidName(raw) == if |Trim(raw)| > 0 && Bytes(Trim(raw)) <= 255 then Some(Trim(raw)) else None
  {
  }

  /// An ASCII letter or digit, by its code.
  predicate IsAlphanumeric(c: char) {
    65 <= c as int <= 90 || 97 <= c as int <= 122 || 48 <= c as int <= 57
  }

  lemma TokenSays(s: string)
    ensures IsToken(s) <==> |s| > 0 && forall c :: c in s ==> IsAlphanumeric(c) || c in "!#$&-^_.+"
  {
  }

  /// A media type is a type and a subtype, two tokens around the first slash.
  lemma MediaTypeSays(raw: string)
    ensures IsMediaType(raw) <==>
              Bytes(raw) <= 255 && exists kind, subtype {:trigger kind + "/" + subtype} ::
                raw == kind + "/" + subtype && IsToken(kind) && IsToken(subtype)
  {
    if IsMediaType(raw) {
      SplitJoins(raw);
    }
    if kind, subtype {:trigger kind + "/" + subtype} :| raw == kind + "/" + subtype && IsToken(kind) && IsToken(subtype) {
      assert forall c :: c in kind ==> IsTokenChar(c) && c != '/';
      SplitAtFirst(kind, subtype);
    }
  }

  lemma {:induction false} SplitAtFirst(kind: string, subtype: string)
    requires '/' !in kind
    ensures SplitOnce(kind + "/" + subtype) == Some((kind, subtype))
  {
    var s := kind + "/" + subtype;
    if kind == "" {
      assert s[0] == '/' && s[1..] == subtype;
    } else {
      assert s[0] == kind[0] && s[1..] == kind[1..] + "/" + subtype;
      SplitAtFirst(kind[1..], subtype);
      assert SplitOnce(s[1..]) == Some((kind[1..], subtype));
      assert [kind[0]] + kind[1..] == kind;
    }
  }

  /// A pattern is any, a type's wildcard, or a media type.
  lemma PatternSays(pattern: string)
    ensures IsPattern(pattern) <==>
              || pattern == "*" || IsMediaType(pattern)
              || exists kind {:trigger kind + "/*"} :: pattern == kind + "/*" && IsMediaType(kind + "/x")
  {
    var stripped := StripSuffix(pattern, "/*");
    if stripped.Some? {
      assert pattern == stripped.value + "/*";
    }
    if kind {:trigger kind + "/*"} :| pattern == kind + "/*" && IsMediaType(kind + "/x") {
      assert |pattern| == |kind| + 2 && pattern[|kind|..] == "/*" && pattern[..|kind|] == kind;
    }
  }

  /// A plan holds 1 to 32 steps, each with a runner type of 1 to 128 sound characters.
  lemma StepsSay(steps: seq<Step>)
    ensures StepsAreSound(steps) <==>
              1 <= |steps| <= 32 && forall step :: step in steps ==>
                1 <= Bytes(step.runnerType) <= 128 && forall c :: c in step.runnerType ==> IsAlphanumeric(c) || c in "-_."
  {
    assert forall i :: 0 <= i < |steps| ==> steps[i] in steps;
  }

  /// What a create is refused for, in this order.
  lemma CreateSays(table: Table, rawName: string, trigger: S.Trigger, mediaTypes: seq<string>, steps: seq<Step>, isDefault: bool)
    ensures CreateRefusal(table, rawName, trigger, mediaTypes, steps, isDefault) ==
              if ValidName(rawName).None? || |mediaTypes| == 0 then Some("INVALID_RULESET")
              else if exists pattern :: pattern in mediaTypes && !IsPattern(pattern) then Some("INVALID_MEDIA_TYPE")
              else if !StepsAreSound(steps) then Some("INVALID_RULESET")
              else if NameTaken(table, ValidName(rawName).value, None) then Some("RULESET_NAME_TAKEN")
              else if isDefault && Clashes(table, trigger, Patterns(mediaTypes), None) then Some("DEFAULT_ALREADY_SET")
              else None
  {
  }

  /// What an update asks of a rule: what it names, and the rest as it was.
  lemma AskedSays(rule: Rule, rawName: Option<string>, mediaTypes: Option<seq<string>>, newSteps: Option<seq<Step>>,
                  newDefault: Option<bool>)
    requires rawName.Some? ==> ValidName(rawName.value).Some?
    ensures var asked := Asked(rule, rawName, mediaTypes, newSteps, newDefault);
            && asked.trigger == rule.trigger
            && (if rawName.Some? then ValidName(rawName.value) == Some(asked.name) else asked.name == rule.name)
            && asked.mediaTypes == (if mediaTypes.Some? then Patterns(mediaTypes.value) else rule.mediaTypes)
            && asked.steps == (if newSteps.Some? then newSteps.value else rule.steps)
            && asked.isDefault == (if newDefault.Some? then newDefault.value else rule.isDefault)
  {
  }

  /// What an update is refused for, in this order.
  lemma UpdateSays(table: Table, id: Uuid, rawName: Option<string>, mediaTypes: Option<seq<string>>, newSteps: Option<seq<Step>>,
                   newDefault: Option<bool>)
    ensures UpdateRefusal(table, id, rawName, mediaTypes, newSteps, newDefault) ==
              if id !in table then Some("RULESET_NOT_FOUND")
              else if (rawName.Some? && ValidName(rawName.value).None?) || (mediaTypes.Some? && |mediaTypes.value| == 0)
              then Some("INVALID_RULESET")
              else if mediaTypes.Some? && exists pattern :: pattern in mediaTypes.value && !IsPattern(pattern)
              then Some("INVALID_MEDIA_TYPE")
              else if !StepsAreSound(if newSteps.Some? then newSteps.value else table[id].steps) then Some("INVALID_RULESET")
              else
                var asked := Asked(table[id], rawName, mediaTypes, newSteps, newDefault);
                if asked == table[id] then Some("NOTHING_TO_CHANGE")
                else if NameTaken(table, asked.name, Some(id)) then Some("RULESET_NAME_TAKEN")
                else if asked.isDefault && Clashes(table, asked.trigger, asked.mediaTypes, Some(id)) then Some("DEFAULT_ALREADY_SET")
                else None
  {
  }

  /// The rule under the nil id stands in the way, unseen by a create.
  predicate NilStandsInTheWay(table: Table, id: Uuid, rule: Rule) {
    id != Nil && Nil in table && rule.isDefault && DefaultOf(table[Nil], rule.trigger) && Overlap(table[Nil].mediaTypes, rule.mediaTypes)
  }

  /// A create that passes its check keeps the defaults disjoint exactly when no
  /// default sits under the nil id with one of the rule's patterns.
  lemma CreateKeepsDefaults(table: Table, id: Uuid, rule: Rule)
    requires Disjoint(table) && (rule.isDefault ==> !Clashes(table, rule.trigger, rule.mediaTypes, None))
    ensures Disjoint(table[id := rule]) <==> !NilStandsInTheWay(table, id, rule)
  {
    var after := table[id := rule];
    if NilStandsInTheWay(table, id, rule) {
      assert Overlap(after[Nil].mediaTypes, after[id].mediaTypes);
    } else {
      forall a, b | a in after && b in after && a != b && DefaultOf(after[a], after[b].trigger) && after[b].isDefault
        ensures !Overlap(after[a].mediaTypes, after[b].mediaTypes)
      {
        OverlapIsSymmetric(after[a].mediaTypes, after[b].mediaTypes);
      }
    }
  }

  lemma OverlapIsSymmetric(a: seq<string>, b: seq<string>)
    ensures Overlap(a, b) <==> Overlap(b, a)
  {
  }

  /// It does not always. From the empty table, two creates go through, the first
  /// under the nil id: both rules are then defaults of the same pattern.
  lemma NilIdLetsAClashIn(id: Uuid, steps: seq<Step>)
    requires id != Nil && steps == [Step("r", 0)]
    ensures CreateRefusal(map[], "a", S.Upload, ["*"], steps, true).None?
    ensures var one: Table := map[Nil := Rule("a", S.Upload, Patterns(["*"]), steps, true)];
            && Disjoint(one)
            && CreateRefusal(one, "b", S.Upload, ["*"], steps, true).None?
            && !Disjoint(one[id := Rule("b", S.Upload, Patterns(["*"]), steps, true)])
  {
    var one: Table := map[Nil := Rule("a", S.Upload, ["*"], steps, true)];
    var rule := Rule("b", S.Upload, ["*"], steps, true);
    OneLetterIsAName('a');
    OneLetterIsAName('b');
    OneLetterIsAName('r');
    AnyIsAPattern();
    assert "*" in rule.mediaTypes && "*" in one[Nil].mediaTypes;
    CreateKeepsDefaults(one, id, rule);
  }

  lemma OneLetterIsAName(c: char)
    requires 'a' <= c <= 'z'
    ensures ValidName([c]) == Some([c]) && RunnerTypeIsSound([c])
  {
    assert !IsWhite(c) && [c][..0] == [];
    assert TrimStart([c]) == [c] && TrimEnd([c]) == [c];
    assert Bytes([c][..0]) == 0 && Width(c) == 1;
  }

  lemma AnyIsAPattern()
    ensures IsPattern("*") && Patterns(["*"]) == ["*"]
  {
    assert ["*"][..0] == [] && Lower("*") == "*";
  }

  /// An update that passes its check always keeps them.
  lemma UpdateKeepsDefaults(table: Table, id: Uuid, rule: Rule)
    requires Disjoint(table) && id in table && rule.trigger == table[id].trigger
    requires rule.isDefault ==> !Clashes(table, rule.trigger, rule.mediaTypes, Some(id))
    ensures Disjoint(table[id := rule])
  {
    var after := table[id := rule];
    forall a, b | a in after && b in after && a != b && DefaultOf(after[a], after[b].trigger) && after[b].isDefault
      ensures !Overlap(after[a].mediaTypes, after[b].mediaTypes)
    {
      OverlapIsSymmetric(after[a].mediaTypes, after[b].mediaTypes);
    }
  }

  // ---- every sequence of saves ----

  datatype Save = Creates(id: Uuid, rule: Rule) | Updates(id: Uuid, rule: Rule) | Deletes(id: Uuid)

  /// A save the gestures let through.
  predicate Passes(table: Table, save: Save) {
    match save
    case Creates(_, rule) => rule.isDefault ==> !Clashes(table, rule.trigger, rule.mediaTypes, None)
    case Updates(id, rule) =>
      id in table && rule.trigger == table[id].trigger
      && (rule.isDefault ==> !Clashes(table, rule.trigger, rule.mediaTypes, Some(id)))
    case Deletes(id) => id in table
  }

  function Saved(table: Table, save: Save): Table {
    match save
    case Creates(id, rule) => table[id := rule]
    case Updates(id, rule) => table[id := rule]
    case Deletes(id) => table - {id}
  }

  ghost predicate Runs(table: Table, saves: seq<Save>)
    decreases |saves|
  {
    saves != [] ==> Passes(table, saves[0]) && Runs(Saved(table, saves[0]), saves[1..])
  }

  ghost function After(table: Table, saves: seq<Save>): Table
    requires Runs(table, saves)
    decreases |saves|
  {
    if saves == [] then table else After(Saved(table, saves[0]), saves[1..])
  }

  /// Every sequence of creates, updates and deletes keeps the defaults of one
  /// trigger disjoint, as long as no rule is created under the nil id.
  lemma {:induction false} DefaultsStayDisjoint(table: Table, saves: seq<Save>)
    requires Disjoint(table) && Nil !in table && Runs(table, saves)
    requires forall save :: save in saves && save.Creates? ==> save.id != Nil
    ensures Disjoint(After(table, saves)) && Nil !in After(table, saves)
    decreases |saves|
  {
    if saves != [] {
      PassedKeepsDefaults(table, saves[0]);
      assert saves[0] in saves;
      DefaultsStayDisjoint(Saved(table, saves[0]), saves[1..]);
    }
  }

  /// Disjoint before the first save, and after each.
  ghost predicate AlwaysDisjoint(table: Table, saves: seq<Save>)
    requires Runs(table, saves)
    decreases |saves|
  {
    Disjoint(table) && (saves != [] ==> AlwaysDisjoint(Saved(table, saves[0]), saves[1..]))
  }

  /// Some create of the sequence finds the nil rule in its way.
  ghost predicate MeetsNil(table: Table, saves: seq<Save>)
    requires Runs(table, saves)
    decreases |saves|
  {
    && saves != []
    && ((saves[0].Creates? && NilStandsInTheWay(table, saves[0].id, saves[0].rule)) || MeetsNil(Saved(table, saves[0]), saves[1..]))
  }

  lemma PassedKeepsDefaults(table: Table, save: Save)
    requires Disjoint(table) && Passes(table, save)
    ensures Disjoint(Saved(table, save)) <==> !(save.Creates? && NilStandsInTheWay(table, save.id, save.rule))
  {
    match save
    case Creates(id, rule) => CreateKeepsDefaults(table, id, rule);
    case Updates(id, rule) => UpdateKeepsDefaults(table, id, rule);
    case Deletes(_) =>
  }

  /// Over every sequence, the defaults stay disjoint all along exactly when no create
  /// finds the nil rule in its way.
  lemma {:induction false} DisjointUnlessNilIsMet(table: Table, saves: seq<Save>)
    requires Disjoint(table) && Runs(table, saves)
    ensures AlwaysDisjoint(table, saves) <==> !MeetsNil(table, saves)
    decreases |saves|
  {
    if saves != [] {
      PassedKeepsDefaults(table, saves[0]);
      if Disjoint(Saved(table, saves[0])) {
        DisjointUnlessNilIsMet(Saved(table, saves[0]), saves[1..]);
      }
    }
  }

  // ---- the gestures ----

  class Catalogue {
    var table: Table

    constructor ()
      ensures table == map[] && Disjoint(table)
    {
      table := map[];
    }

    /// Creates a rule under the caller's id (or writes over the one it has).
    method Create(id: Uuid, rawName: string, trigger: S.Trigger, mediaTypes: seq<string>, steps: seq<Step>, isDefault: bool)
      returns (refused: Option<string>)
      modifies this
      ensures refused == CreateRefusal(old(table), rawName, trigger, mediaTypes, steps, isDefault)
      ensures refused.Some? ==> table == old(table)
      ensures refused.None? ==>
                id in table
                && table == old(table)[id := Rule(ValidName(rawName).value, trigger, Patterns(mediaTypes), steps, isDefault)]
      ensures old(Disjoint(table)) && refused.None? ==>
                (Disjoint(table) <==> !NilStandsInTheWay(old(table), id, table[id]))
    {
      var name := ValidName(rawName);
      if name.None? {
        return Some(INVALID_RULESET);
      }
      var patterns := ValidateMediaTypes(mediaTypes);
      if patterns.Err? {
        return Some(patterns.error);
      }
      if !StepsAreSound(steps) {
        return Some(INVALID_RULESET);
      }
      if NameTaken(table, name.value, None) {
        return Some(RULESET_NAME_TAKEN);
      }
      if isDefault && Clashes(table, trigger, patterns.value, None) {
        return Some(DEFAULT_ALREADY_SET);
      }
      var rule := Rule(name.value, trigger, patterns.value, steps, isDefault);
      if old(Disjoint(table)) {
        CreateKeepsDefaults(table, id, rule);
      }
      table := table[id := rule];
      return None;
    }

    /// The rule with what the update names, once that is valid.
    method Validate(rule: Rule, rawName: Option<string>, mediaTypes: Option<seq<string>>, newSteps: Option<seq<Step>>,
                    newDefault: Option<bool>) returns (r: Result<Rule, string>)
      ensures r == if Unsound(rule, rawName, mediaTypes, newSteps).Some? then Err(Unsound(rule, rawName, mediaTypes, newSteps).value)
                   else Ok(Asked(rule, rawName, mediaTypes, newSteps, newDefault))
    {
      var asked := rule;
      if rawName.Some? {
        if ValidName(rawName.value).None? {
          return Err(INVALID_RULESET);
        }
        asked := asked.(name := ValidName(rawName.value).value);
      }
      if mediaTypes.Some? {
        var patterns := ValidateMediaTypes(mediaTypes.value);
        if patterns.Err? {
          return Err(patterns.error);
        }
        asked := asked.(mediaTypes := patterns.value);
      }
      asked := asked.(steps := newSteps.GetOr(asked.steps));
      if !StepsAreSound(asked.steps) {
        return Err(INVALID_RULESET);
      }
      return Ok(asked.(isDefault := newDefault.GetOr(asked.isDefault)));
    }

    method Update(id: Uuid, rawName: Option<string>, mediaTypes: Option<seq<string>>, newSteps: Option<seq<Step>>,
                  newDefault: Option<bool>) returns (refused: Option<string>)
      modifies this
      ensures refused == UpdateRefusal(old(table), id, rawName, mediaTypes, newSteps, newDefault)
      ensures table == if refused.Some? then old(table)
                       else old(table)[id := Asked(old(table)[id], rawName, mediaTypes, newSteps, newDefault)]
      ensures old(Disjoint(table)) ==> Disjoint(table)
    {
      if id !in table {
        return Some(RULESET_NOT_FOUND);
      }
      var asked := Validate(table[id], rawName, mediaTypes, newSteps, newDefault);
      if asked.Err? {
        return Some(asked.error);
      }
      var rule := asked.value;
      if rule == table[id] {
        return Some(NOTHING_TO_CHANGE);
      }
      if NameTaken(table, rule.name, Some(id)) {
        return Some(RULESET_NAME_TAKEN);
      }
      if rule.isDefault && Clashes(table, rule.trigger, rule.mediaTypes, Some(id)) {
        return Some(DEFAULT_ALREADY_SET);
      }
      if old(Disjoint(table)) {
        UpdateKeepsDefaults(table, id, rule);
      }
      table := table[id := rule];
      return None;
    }

    method Delete(id: Uuid) returns (refused: Option<string>)
      modifies this
      ensures refused == if id in old(table) then None else Some(RULESET_NOT_FOUND)
      ensures table == old(table) - {id}
      ensures old(Disjoint(table)) ==> Disjoint(table)
    {
      if id !in table {
        assert table - {id} == table;
        return Some(RULESET_NOT_FOUND);
      }
      table := table - {id};
      return None;
    }

    /// The rule given, checked; or the default with the best pattern, ties by name.
    method Select(rows: seq<Uuid>, trigger: S.Trigger, mediaType: string, explicit: Option<Uuid>)
      returns (r: Result<Option<Uuid>, string>)
      requires forall id :: id in rows <==> id in table && DefaultOf(table[id], trigger)
      ensures explicit.Some? ==>
                r == if explicit.value !in table then Err(RULESET_NOT_FOUND)
                     else if table[explicit.value].trigger != trigger || BestMatch(table[explicit.value].mediaTypes, mediaType).None?
                     then Err(RULESET_MISMATCH) else Ok(explicit)
      ensures explicit.None? ==> r.Ok?
      ensures explicit.None? && r.value.Some? ==> r.value.value in rows && IsBest(table, trigger, mediaType, r.value.value)
      ensures explicit.None? && r.value.None? ==> forall id :: id in rows ==> BestMatch(table[id].mediaTypes, mediaType).None?
    {
      if explicit.Some? {
        if explicit.value !in table {
          return Err(RULESET_NOT_FOUND);
        }
        var rule := table[explicit.value];
        if rule.trigger != trigger || BestMatch(rule.mediaTypes, mediaType).None? {
          return Err(RULESET_MISMATCH);
        }
        return Ok(explicit);
      }
      var best := Best(rows, map id | id in rows :: BestMatch(table[id].mediaTypes, mediaType));
      return Ok(best);
    }

    /// The first of the rows with the least rank, then the least name.
    method Best(rows: seq<Uuid>, ranks: map<Uuid, Option<nat>>) returns (best: Option<Uuid>)
      requires forall id :: id in rows ==> id in table && id in ranks
      ensures best.None? ==> forall id :: id in rows ==> ranks[id].None?
      ensures best.Some? ==> best.value in rows && ranks[best.value].Some?
      ensures best.Some? ==> forall id :: id in rows && ranks[id].Some? ==>
                || ranks[best.value].value < ranks[id].value
                || (ranks[best.value].value == ranks[id].value && !Before(table[id].name, table[best.value].name))
    {
      best := None;
      for n := 0 to |rows|
        invariant best.None? ==> forall i :: 0 <= i < n ==> ranks[rows[i]].None?
        invariant best.Some? ==> best.value in rows && ranks[best.value].Some?
        invariant best.Some? ==> forall i :: 0 <= i < n && ranks[rows[i]].Some? ==>
                    || ranks[best.value].value < ranks[rows[i]].value
                    || (ranks[best.value].value == ranks[rows[i]].value && !Before(table[rows[i]].name, table[best.value].name))
      {
        var rank := ranks[rows[n]];
        NotBeforeItself(table[rows[n]].name);
        if rank.Some? {
          if best.None? {
            best := Some(rows[n]);
          } else {
            var least := ranks[best.value].value;
            if rank.value < least || (rank.value == least && Before(table[rows[n]].name, table[best.value].name)) {
              forall i | 0 <= i < n
                ensures Before(table[rows[i]].name, table[rows[n]].name) && Before(table[rows[n]].name, table[best.value].name) ==>
                          Before(table[rows[i]].name, table[best.value].name)
              {
                BeforeChains(table[rows[i]].name, table[rows[n]].name, table[best.value].name);
              }
              best := Some(rows[n]);
            }
          }
        }
      }
    }
  }

  /// The order of names.
  predicate Before(a: string, b: string) {
    if b == "" then false else if a == "" then true
    else a[0] < b[0] || (a[0] == b[0] && Before(a[1..], b[1..]))
  }

  lemma {:induction false} BeforeChains(a: string, b: string, c: string)
    ensures Before(a, b) && Before(b, c) ==> Before(a, c)
  {
    if a != "" && b != "" && c != "" {
      BeforeChains(a[1..], b[1..], c[1..]);
    }
  }

  /// The order of names is the one of their first difference.
  lemma {:induction false} BeforeSays(a: string, b: string)
    ensures Before(a, b) <==>
              exists i :: 0 <= i <= |a| && i < |b| && a[..i] == b[..i] && (i == |a| || a[i] < b[i])
  {
    if a != "" && b != "" && a[0] == b[0] {
      BeforeSays(a[1..], b[1..]);
      if Before(a[1..], b[1..]) {
        var i :| 0 <= i <= |a| - 1 && i < |b| - 1 && a[1..][..i] == b[1..][..i] && (i == |a| - 1 || a[1..][i] < b[1..][i]);
        assert a[..i + 1] == [a[0]] + a[1..][..i] && b[..i + 1] == [b[0]] + b[1..][..i];
      }
      if i :| 0 <= i <= |a| && i < |b| && a[..i] == b[..i] && (i == |a| || a[i] < b[i]) {
        assert i > 0;
        assert a[1..][..i - 1] == a[..i][1..] && b[1..][..i - 1] == b[..i][1..];
      }
    } else if b != "" && (a == "" || a[0] < b[0]) {
      assert a[..0] == b[..0];
    } else {
      assert forall i :: 0 < i <= |a| && i < |b| && a[..i] == b[..i] ==> a[..i][0] == b[..i][0];
    }
  }

  lemma {:induction false} NotBeforeItself(a: string)
    ensures !Before(a, a)
  {
    if a != "" {
      NotBeforeItself(a[1..]);
    }
  }

  /// A default of the trigger that matches as well as any.
  predicate IsBest(table: Table, trigger: S.Trigger, mediaType: string, id: Uuid) {
    && id in table && DefaultOf(table[id], trigger) && BestMatch(table[id].mediaTypes, mediaType).Some?
    && forall other :: other in table && DefaultOf(table[other], trigger) && BestMatch(table[other].mediaTypes, mediaType).Some? ==>
         BestMatch(table[id].mediaTypes, mediaType).value <= BestMatch(table[other].mediaTypes, mediaType).value
  }

  /// With disjoint defaults the best one is the only one: whatever the order of the
  /// rows, and whatever the names, the same rule is selected.
  lemma BestIsUnique(table: Table, trigger: S.Trigger, mediaType: string, a: Uuid, b: Uuid)
    requires Disjoint(table) && IsBest(table, trigger, mediaType, a) && IsBest(table, trigger, mediaType, b)
    ensures a == b
  {
    var best := BestMatch(table[a].mediaTypes, mediaType);
    var i :| 0 <= i < |table[a].mediaTypes| && MatchRank(table[a].mediaTypes[i], mediaType) == best;
    var j :| 0 <= j < |table[b].mediaTypes| && MatchRank(table[b].mediaTypes[j], mediaType) == best;
    RankTellsPattern(table[a].mediaTypes[i], table[b].mediaTypes[j], mediaType);
    assert table[a].mediaTypes[i] in table[a].mediaTypes && table[a].mediaTypes[i] in table[b].mediaTypes;
    assert a != b ==> Overlap(table[a].mediaTypes, table[b].mediaTypes);
  }
}
