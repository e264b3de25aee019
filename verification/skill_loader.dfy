/** Skill discovery and loading (`src/bub/skills/loader.py`).

    The file system is a value: `files` maps a path to the text of a
    readable regular file, `dirs` maps a directory path to its entries as
    `sorted(root.iterdir())` yields them. The YAML parser is foreign and is
    passed in as a function. */
module SkillLoader {
  import opened Base
  import opened Json
  import opened Text
  import opened Order

  const ProjectSkillsDir := ".agent/skills"
  const BobOpsSkillsDir := ".agent/bob-ops/skills"
  const SkillFileName := "SKILL.md"
  const DefaultDescription := "No description provided."

  /** What `yaml.safe_load` gives: an error, a value that is not a mapping,
      or a mapping with its (already `str()`-converted) keys in order. */
  datatype Yaml = YamlError | NotMapping | Mapping(pairs: seq<(string, Json)>)

  datatype DirEntry = DirEntry(name: string, isDir: bool)

  datatype Fs = Fs(files: map<string, string>, dirs: map<string, seq<DirEntry>>)

  /** `SkillMetadata`. */
  datatype Skill = Skill(name: string, description: string, location: string, metadata: Json, source: string)

  // ---------------------------------------------------------------------
  // _parse_frontmatter
  // ---------------------------------------------------------------------

  /** A line that reads `---` once stripped: the front matter fence. */
  predicate IsFence(line: string) {
    Strip(line) == "---"
  }

  /** The first line at or after `i` that reads `---` once stripped. */
  function ClosingLine(lines: seq<string>, i: nat): (r: Option<nat>)
    ensures r.Some? ==> i <= r.value < |lines| && IsFence(lines[r.value])
    ensures r.Some? ==> forall j :: i <= j < r.value ==> !IsFence(lines[j])
    ensures r.None? ==> forall j :: i <= j < |lines| ==> !IsFence(lines[j])
    decreases |lines| - i
  {
    if i >= |lines| then None
    else if IsFence(lines[i]) then Some(i)
    else ClosingLine(lines, i + 1)
  }

  /** The YAML text of a front matter block: the lines strictly between an
      opening `---` on the first line and the first closing `---`. */
  function FrontmatterPayload(content: string): (r: Option<string>)
    ensures var lines := SplitLines(content);
      r.Some? <==>
        && |lines| > 0
        && IsFence(lines[0])
        && exists j :: 1 <= j < |lines| && IsFence(lines[j])
    ensures var lines := SplitLines(content);
      r.Some? ==> exists idx ::
        && 1 <= idx < |lines|
        && IsFence(lines[idx])
        && (forall j :: 1 <= j < idx ==> !IsFence(lines[j]))
        && r.value == Join("\n", lines[1..idx])
  {
    var lines := SplitLines(content);
    if |lines| == 0 || !IsFence(lines[0]) then None
    else
      match ClosingLine(lines, 1)
      case None => None
      case Some(idx) => Some(Join("\n", lines[1..idx]))
  }

  /** `{str(key).lower(): value for key, value in parsed.items()}`. */
  function LowerKeys(pairs: seq<(string, Json)>): (r: map<string, Json>)
    ensures forall k :: k in r <==> exists i :: 0 <= i < |pairs| && Lower(pairs[i].0) == k
    decreases |pairs|
  {
    if |pairs| == 0 then map[]
    else
      var n := |pairs| - 1;
      assert forall i :: 0 <= i < n ==> pairs[..n][i] == pairs[i];
      LowerKeys(pairs[..n])[Lower(pairs[n].0) := pairs[n].1]
  }

  /** Of the keys that lower to the same text, the last one's value is
      kept. */
  lemma {:induction false} LowerKeysLastWins(pairs: seq<(string, Json)>, i: int)
    requires 0 <= i < |pairs|
    requires forall j :: i < j < |pairs| ==> Lower(pairs[j].0) != Lower(pairs[i].0)
    ensures Lower(pairs[i].0) in LowerKeys(pairs)
    ensures LowerKeys(pairs)[Lower(pairs[i].0)] == pairs[i].1
    decreases |pairs|
  {
    var n := |pairs| - 1;
    if i < n {
      assert forall j :: 0 <= j < n ==> pairs[..n][j] == pairs[j];
      LowerKeysLastWins(pairs[..n], i);
    }
  }

  /** `_parse_frontmatter`: the lower-cased mapping of the front matter,
      and `{}` when there is no block, the YAML is broken, or it is not a
      mapping. */
  function ParseFrontmatter(yaml: string -> Yaml, content: string): (r: map<string, Json>)
    ensures forall k :: k in r ==> Lower(k) == k
    ensures r != map[] ==> FrontmatterPayload(content).Some? && yaml(FrontmatterPayload(content).value).Mapping?
    ensures FrontmatterPayload(content).Some? && yaml(FrontmatterPayload(content).value).Mapping? ==>
      r == LowerKeys(yaml(FrontmatterPayload(content).value).pairs)
  {
    match FrontmatterPayload(content)
    case None => map[]
    case Some(payload) =>
      match yaml(payload)
      case Mapping(pairs) =>
        var r := LowerKeys(pairs);
        assert forall k :: k in r ==> Lower(k) == k by {
          forall k | k in r ensures Lower(k) == k {
            var i :| 0 <= i < |pairs| && Lower(pairs[i].0) == k;
            LowerIdempotent(pairs[i].0);
          }
        }
        r
      case _ => map[]
  }

  // ---------------------------------------------------------------------
  // _read_skill
  // ---------------------------------------------------------------------

  function SkillFile(dir: string): string {
    dir + "/" + SkillFileName
  }

  /** `str(metadata.get(key) or fallback).strip()`. */
  function FieldOr(c: Codec, fm: map<string, Json>, key: string, fallback: string): (r: string)
    ensures !Truthy(Get(fm, key)) ==> r == Strip(fallback)
    ensures Get(fm, key).Str? ==> r == Strip(if Get(fm, key).s == "" then fallback else Get(fm, key).s)
  {
    Strip(if Truthy(Get(fm, key)) then PyStr(c, Get(fm, key)) else fallback)
  }

  /** `_read_skill` for the directory `dir`, whose last path component is
      `dirName`. */
  function ReadSkill(c: Codec, yaml: string -> Yaml, fs: Fs, dir: string, dirName: string, source: string): (r: Option<Skill>)
    ensures SkillFile(dir) !in fs.files ==> r.None?
    ensures SkillFile(dir) in fs.files ==>
      var fm := ParseFrontmatter(yaml, fs.files[SkillFile(dir)]);
      && (r.None? <==> FieldOr(c, fm, "name", dirName) == [])
      && (r.Some? ==> r.value == Skill(FieldOr(c, fm, "name", dirName), FieldOr(c, fm, "description", DefaultDescription),
                                      SkillFile(dir), Get(fm, "metadata"), source))
    ensures r.Some? ==>
      && r.value.location in fs.files
      && r.value.name != [] && !IsSpace(r.value.name[0]) && !IsSpace(r.value.name[|r.value.name| - 1])
  {
    var file := SkillFile(dir);
    if file !in fs.files then None
    else
      var fm := ParseFrontmatter(yaml, fs.files[file]);
      var name := FieldOr(c, fm, "name", dirName);
      if name == [] then None
      else Some(Skill(name, FieldOr(c, fm, "description", DefaultDescription), file, Get(fm, "metadata"), source))
  }

  /** Without a usable `description`, the skill is described as
      "No description provided.". */
  lemma DescriptionDefault(c: Codec, fm: map<string, Json>)
    requires !Truthy(Get(fm, "description"))
    ensures FieldOr(c, fm, "description", DefaultDescription) == DefaultDescription
  {
    assert !IsSpace(DefaultDescription[0]);
    assert !IsSpace(DefaultDescription[|DefaultDescription| - 1]);
  }

  // ---------------------------------------------------------------------
  // discover_skills
  // ---------------------------------------------------------------------

  /** The case-insensitive identity of a skill. */
  function Key(s: Skill): string {
    CaseFold(s.name)
  }

  /** What `discover_skills` makes of one directory entry of a root:
      nothing for a plain file, else whatever `_read_skill` gives. */
  function EntrySkill(c: Codec, yaml: string -> Yaml, fs: Fs, root: string, source: string, e: DirEntry): (r: Option<Skill>)
    ensures r.Some? ==> r.value.location in fs.files && r.value.source == source
    ensures !e.isDir ==> r.None?
  {
    if e.isDir then ReadSkill(c, yaml, fs, root + "/" + e.name, e.name, source) else None
  }

  /** The skills of one root, in listing order. */
  function RootSkills(c: Codec, yaml: string -> Yaml, fs: Fs, root: string, source: string, entries: seq<DirEntry>): (r: seq<Skill>)
    ensures |r| <= |entries|
    ensures forall s :: s in r ==> s.location in fs.files && s.source == source
    decreases |entries|
  {
    if |entries| == 0 then []
    else
      var rest := RootSkills(c, yaml, fs, root, source, entries[1..]);
      var head := EntrySkill(c, yaml, fs, root, source, entries[0]);
      if head.None? then rest else [head.value] + rest
  }

  /** Every sub-directory of a root that `_read_skill` accepts is among
      the root's skills. */
  lemma {:induction false} RootSkillsComplete(c: Codec, yaml: string -> Yaml, fs: Fs, root: string, source: string, entries: seq<DirEntry>, j: int)
    requires 0 <= j < |entries| && EntrySkill(c, yaml, fs, root, source, entries[j]).Some?
    ensures EntrySkill(c, yaml, fs, root, source, entries[j]).value in RootSkills(c, yaml, fs, root, source, entries)
    decreases |entries|
  {
    var rest := RootSkills(c, yaml, fs, root, source, entries[1..]);
    var s := EntrySkill(c, yaml, fs, root, source, entries[j]).value;
    if j > 0 {
      assert entries[j] == entries[1..][j - 1];
      RootSkillsComplete(c, yaml, fs, root, source, entries[1..], j - 1);
      assert s in rest;
      assert s in RootSkills(c, yaml, fs, root, source, entries);
    } else {
      assert RootSkills(c, yaml, fs, root, source, entries) == [s] + rest;
    }
  }

  /** The position of the first root tagged `source`, or `|roots|`. */
  function TagIndex(roots: seq<(string, string)>, source: string): (r: nat)
    ensures r <= |roots|
    ensures r < |roots| ==> roots[r].1 == source
    ensures forall i :: 0 <= i < r ==> roots[i].1 != source
    decreases |roots|
  {
    if |roots| == 0 then 0
    else if roots[0].1 == source then 0
    else 1 + TagIndex(roots[1..], source)
  }

  /** No two roots carry the same source tag. */
  predicate TagsDistinct(roots: seq<(string, string)>) {
    forall i, j :: 0 <= i < j < |roots| ==> roots[i].1 != roots[j].1
  }

  /** Putting the skills of the first root in front of those of the
      others keeps every skill tagged and the tags in root order. */
  lemma TagOrderStep(roots: seq<(string, string)>, here: seq<Skill>, rest: seq<Skill>)
    requires |roots| > 0
    requires forall s :: s in here ==> s.source == roots[0].1
    requires forall s :: s in rest ==> TagIndex(roots[1..], s.source) < |roots| - 1
    requires TagsDistinct(roots[1..]) ==>
      forall a, b :: 0 <= a < b < |rest| ==> TagIndex(roots[1..], rest[a].source) <= TagIndex(roots[1..], rest[b].source)
    ensures forall s :: s in here + rest ==> TagIndex(roots, s.source) < |roots|
    ensures TagsDistinct(roots) ==>
      forall a, b :: 0 <= a < b < |here + rest| ==>
        TagIndex(roots, (here + rest)[a].source) <= TagIndex(roots, (here + rest)[b].source)
  {
    var tail := roots[1..];
    forall s | s in rest
      ensures TagIndex(roots, s.source) <= 1 + TagIndex(tail, s.source)
    {
    }
    if TagsDistinct(roots) {
      assert TagsDistinct(tail) by {
        forall i, j | 0 <= i < j < |tail| ensures tail[i].1 != tail[j].1 {
          assert tail[i] == roots[i + 1] && tail[j] == roots[j + 1];
        }
      }
      forall s | s in rest
        ensures TagIndex(roots, s.source) == 1 + TagIndex(tail, s.source)
      {
        var k := TagIndex(tail, s.source);
        assert tail[k] == roots[k + 1];
      }
      var all := here + rest;
      forall a, b | 0 <= a < b < |all|
        ensures TagIndex(roots, all[a].source) <= TagIndex(roots, all[b].source)
      {
        if a < |here| {
          assert all[a] in here;
        } else {
          assert all[a] == rest[a - |here|] && all[b] == rest[b - |here|];
        }
      }
    }
  }

  /** Every accepted skill of every root that is a directory, roots in
      order: each skill is tagged with one of the roots, and with distinct
      tags every skill of an earlier root comes before every skill of a
      later one. */
  function Candidates(c: Codec, yaml: string -> Yaml, fs: Fs, roots: seq<(string, string)>): (r: seq<Skill>)
    ensures forall s :: s in r ==> s.location in fs.files
    ensures forall s :: s in r ==> TagIndex(roots, s.source) < |roots|
    ensures TagsDistinct(roots) ==>
      forall a, b :: 0 <= a < b < |r| ==> TagIndex(roots, r[a].source) <= TagIndex(roots, r[b].source)
    decreases |roots|
  {
    if |roots| == 0 then []
    else
      var here := if roots[0].0 in fs.dirs then RootSkills(c, yaml, fs, roots[0].0, roots[0].1, fs.dirs[roots[0].0]) else [];
      var rest := Candidates(c, yaml, fs, roots[1..]);
      TagOrderStep(roots, here, rest);
      here + rest
  }

  /** `discover_skills`'s `by_name`: one skill for each case-folded name
      seen. An earlier skill overwrites what the later ones left, which
      is the loop's "keep the first" read from the other end. */
  function FirstByName(skills: seq<Skill>): (r: map<string, Skill>)
    ensures forall k :: k in r <==> exists i :: 0 <= i < |skills| && Key(skills[i]) == k
    ensures forall k :: k in r ==> Key(r[k]) == k && r[k] in skills
    decreases |skills|
  {
    if |skills| == 0 then map[]
    else
      assert forall i :: 1 <= i < |skills| ==> skills[1..][i - 1] == skills[i];
      FirstByName(skills[1..])[Key(skills[0]) := skills[0]]
  }

  /** The skill kept for a name is the first one seen with it: a skill
      from an earlier root shadows every later one whose name differs
      from it only in case. */
  lemma {:induction false} FirstSeenWins(skills: seq<Skill>, i: int)
    requires 0 <= i < |skills|
    requires forall j :: 0 <= j < i ==> Key(skills[j]) != Key(skills[i])
    ensures FirstByName(skills)[Key(skills[i])] == skills[i]
    decreases |skills|
  {
    if i > 0 {
      var rest := skills[1..];
      assert rest[i - 1] == skills[i];
      assert forall j :: 0 <= j < i - 1 ==> rest[j] == skills[j + 1];
      FirstSeenWins(rest, i - 1);
    }
  }

  /** The skill kept for a name is the one at its first position. */
  lemma {:induction false} FirstByNameIsEarliest(skills: seq<Skill>, j: int)
    requires 0 <= j < |skills|
    ensures exists i :: 0 <= i <= j && FirstByName(skills)[Key(skills[j])] == skills[i]
    decreases |skills|
  {
    if Key(skills[0]) == Key(skills[j]) {
      assert FirstByName(skills)[Key(skills[j])] == skills[0];
    } else {
      var rest := skills[1..];
      assert rest[j - 1] == skills[j];
      FirstByNameIsEarliest(rest, j - 1);
      var i :| 0 <= i <= j - 1 && FirstByName(rest)[Key(rest[j - 1])] == rest[i];
      assert FirstByName(skills)[Key(skills[j])] == skills[i + 1];
    }
  }

  /** The four roots searched, most specific first. */
  function OrderedRoots(workspace: string, home: string, builtin: string): seq<(string, string)> {
    [ (workspace + "/" + ProjectSkillsDir, "project"),
      (workspace + "/" + BobOpsSkillsDir, "bob-ops"),
      (home + "/" + ProjectSkillsDir, "global"),
      (builtin, "builtin") ]
  }

  /** The skills `discover_skills` keeps, by case-folded name. */
  function Discovered(c: Codec, yaml: string -> Yaml, fs: Fs, workspace: string, home: string, builtin: string): (r: map<string, Skill>)
    ensures forall k :: k in r ==> Key(r[k]) == k && r[k].location in fs.files
  {
    FirstByName(Candidates(c, yaml, fs, OrderedRoots(workspace, home, builtin)))
  }

  /** The four roots carry four different tags. */
  lemma OrderedRootsTagged(workspace: string, home: string, builtin: string)
    ensures TagsDistinct(OrderedRoots(workspace, home, builtin))
  {
    var roots := OrderedRoots(workspace, home, builtin);
    assert roots[0].1[0] == 'p' && roots[1].1[0] == 'b' && roots[2].1[0] == 'g' && roots[3].1[0] == 'b';
    assert roots[1].1[1] == 'o' && roots[3].1[1] == 'u';
  }

  /** Over candidates in root order, the kept skill for a name is from a
      root no later than that of any candidate with the name. */
  lemma EarliestKept(cands: seq<Skill>, roots: seq<(string, string)>, t: Skill)
    requires t in cands
    requires forall a, b :: 0 <= a < b < |cands| ==> TagIndex(roots, cands[a].source) <= TagIndex(roots, cands[b].source)
    ensures Key(t) in FirstByName(cands)
    ensures TagIndex(roots, FirstByName(cands)[Key(t)].source) <= TagIndex(roots, t.source)
  {
    var j :| 0 <= j < |cands| && cands[j] == t;
    FirstByNameIsEarliest(cands, j);
    var i :| 0 <= i <= j && FirstByName(cands)[Key(t)] == cands[i];
    if i < j {
      assert TagIndex(roots, cands[i].source) <= TagIndex(roots, cands[j].source);
    }
  }

  /** The kept skill for a name comes from the earliest of the roots
      project, bob-ops, global and builtin that has a skill of that name. */
  lemma EarliestRootWins(c: Codec, yaml: string -> Yaml, fs: Fs, workspace: string, home: string, builtin: string, t: Skill)
    requires t in Candidates(c, yaml, fs, OrderedRoots(workspace, home, builtin))
    ensures Key(t) in Discovered(c, yaml, fs, workspace, home, builtin)
    ensures var roots := OrderedRoots(workspace, home, builtin);
      TagIndex(roots, Discovered(c, yaml, fs, workspace, home, builtin)[Key(t)].source) <= TagIndex(roots, t.source)
  {
    var roots := OrderedRoots(workspace, home, builtin);
    OrderedRootsTagged(workspace, home, builtin);
    EarliestKept(Candidates(c, yaml, fs, roots), roots, t);
  }

  /** A skill from a later root whose name matches, up to case, a skill
      of an earlier root is shadowed: it is not the one kept. */
  lemma LaterRootShadowed(c: Codec, yaml: string -> Yaml, fs: Fs, workspace: string, home: string, builtin: string, s: Skill, t: Skill)
    requires var cands := Candidates(c, yaml, fs, OrderedRoots(workspace, home, builtin));
      s in cands && t in cands
    requires Key(s) == Key(t)
    requires TagIndex(OrderedRoots(workspace, home, builtin), s.source) < TagIndex(OrderedRoots(workspace, home, builtin), t.source)
    ensures Discovered(c, yaml, fs, workspace, home, builtin)[Key(t)] != t
  {
    EarliestRootWins(c, yaml, fs, workspace, home, builtin, s);
  }

  /** `skills` lists skills whose case-folded names are `ks`, in order. */
  predicate KeyedBy(skills: seq<Skill>, ks: seq<string>) {
    |skills| == |ks| && forall i :: 0 <= i < |ks| ==> Key(skills[i]) == ks[i]
  }

  lemma SortedByKey(skills: seq<Skill>, ks: seq<string>)
    requires KeyedBy(skills, ks) && StrictlySorted(ks)
    ensures forall i, j :: 0 <= i < j < |skills| ==> Below(Key(skills[i]), Key(skills[j]))
  {
  }

  lemma KeysCovered(skills: seq<Skill>, ks: seq<string>, names: set<string>)
    requires KeyedBy(skills, ks) && forall k :: k in ks <==> k in names
    ensures forall k :: k in names ==> exists i :: 0 <= i < |skills| && Key(skills[i]) == k
  {
    forall k | k in names ensures exists i :: 0 <= i < |skills| && Key(skills[i]) == k {
      var i :| 0 <= i < |ks| && ks[i] == k;
      assert Key(skills[i]) == k;
    }
  }

  /** The values of a map keyed by case-folded name, sorted by key. */
  method SortByKey(kept: map<string, Skill>) returns (skills: seq<Skill>)
    requires forall k :: k in kept ==> Key(kept[k]) == k
    ensures |skills| == |kept|
    ensures forall i :: 0 <= i < |skills| ==> Key(skills[i]) in kept && skills[i] == kept[Key(skills[i])]
    ensures forall k :: k in kept ==> exists i :: 0 <= i < |skills| && Key(skills[i]) == k
    ensures forall i, j :: 0 <= i < j < |skills| ==> Below(Key(skills[i]), Key(skills[j]))
  {
    var ks := SortedKeys(kept);
    skills := seq(|ks|, i requires 0 <= i < |ks| => kept[ks[i]]);
    assert KeyedBy(skills, ks);
    SortedByKey(skills, ks);
    KeysCovered(skills, ks, kept.Keys);
  }

  /** `discover_skills`: one skill per case-folded name, the one from the
      earliest root, sorted by case-folded name. */
  method DiscoverSkills(c: Codec, yaml: string -> Yaml, fs: Fs, workspace: string, home: string, builtin: string)
    returns (skills: seq<Skill>)
    ensures var kept := Discovered(c, yaml, fs, workspace, home, builtin);
      && |skills| == |kept|
      && (forall i :: 0 <= i < |skills| ==> Key(skills[i]) in kept && skills[i] == kept[Key(skills[i])])
      && (forall k :: k in kept ==> exists i :: 0 <= i < |skills| && Key(skills[i]) == k)
    ensures forall i, j :: 0 <= i < j < |skills| ==> Below(Key(skills[i]), Key(skills[j]))
  {
    skills := SortByKey(Discovered(c, yaml, fs, workspace, home, builtin));
  }

  /** Two skills in a sorted result never share a case-folded name. */
  lemma DiscoveredNamesDistinct(skills: seq<Skill>, i: int, j: int)
    requires forall a, b :: 0 <= a < b < |skills| ==> Below(Key(skills[a]), Key(skills[b]))
    requires 0 <= i < j < |skills|
    ensures CaseFold(skills[i].name) != CaseFold(skills[j].name)
  {
    BelowIrreflexive(Key(skills[i]));
  }

  // ---------------------------------------------------------------------
  // load_skill_body
  // ---------------------------------------------------------------------

  /** The first skill in `skills` whose case-folded name is `key`. */
  method FindByKey(skills: seq<Skill>, key: string) returns (found: Option<Skill>)
    ensures found.Some? <==> exists i :: 0 <= i < |skills| && Key(skills[i]) == key
    ensures found.Some? ==> found.value in skills && Key(found.value) == key
  {
    var i := 0;
    while i < |skills|
      invariant 0 <= i <= |skills|
      invariant forall j :: 0 <= j < i ==> Key(skills[j]) != key
    {
      if Key(skills[i]) == key {
        return Some(skills[i]);
      }
      i := i + 1;
    }
    return None;
  }

  /** `load_skill_body`: the text of the discovered skill whose name
      matches case-insensitively, or `None`. */
  method LoadSkillBody(c: Codec, yaml: string -> Yaml, fs: Fs, name: string, workspace: string, home: string, builtin: string)
    returns (body: Option<string>)
    ensures var kept := Discovered(c, yaml, fs, workspace, home, builtin);
      && (body.Some? <==> CaseFold(name) in kept)
      && (body.Some? ==> body.value == fs.files[kept[CaseFold(name)].location])
  {
    var skills := DiscoverSkills(c, yaml, fs, workspace, home, builtin);
    var found := FindByKey(skills, CaseFold(name));
    body := if found.Some? && found.value.location in fs.files then Some(fs.files[found.value.location]) else None;
  }
}
