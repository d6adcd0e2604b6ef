/** Saving candidate data: a revision check and bump, partial updates and the skill sync. */
module Profile {
  import opened Ordering

  datatype Source = UserDeclared | ResumeParsed | Inferred

  datatype Skill = Skill(displayName: string, years: Option<int>, top: bool, source: Source)

  /** Skills of one profile by normalised name, which is their unique key. */
  type Skills = map<string, Skill>

  /** An optional field of a request: left out, or given, possibly as null. */
  datatype Field<T> = Omitted | Given(value: Option<T>)

  datatype SkillInput = SkillInput(displayName: string, years: Field<int>, top: bool)

  /** An omitted field leaves the stored value alone. */
  function Write<T>(f: Field<T>, stored: Option<T>): Option<T> {
    if f.Omitted? then stored else f.value
  }

  /** `clean` trims, joins white space and applies NFKC; `lower` is toLowerCase. */
  datatype Text = Text(clean: string -> string, lower: string -> string)

  function NameOf(t: Text, s: SkillInput): string {
    t.lower(t.clean(s.displayName))
  }

  // ---- what the sync is to achieve ---------------------------------------------

  function Names(t: Text, inputs: seq<SkillInput>): set<string> {
    set i | 0 <= i < |inputs| && NameOf(t, inputs[i]) != "" :: NameOf(t, inputs[i])
  }

  /** The first input of a name decides. */
  function FirstOf(t: Text, inputs: seq<SkillInput>, name: string): SkillInput
    requires exists i :: 0 <= i < |inputs| && NameOf(t, inputs[i]) == name
  {
    if NameOf(t, inputs[0]) == name then inputs[0]
    else
      assert exists i :: 0 <= i < |inputs[1..]| && NameOf(t, inputs[1..][i]) == name by {
        var i :| 0 <= i < |inputs| && NameOf(t, inputs[i]) == name;
        assert inputs[1..][i - 1] == inputs[i];
      }
      FirstOf(t, inputs[1..], name)
  }

  predicate Kept(rows: Skills, name: string) {
    name in rows && rows[name].source != UserDeclared
  }

  function Merged(t: Text, rows: Skills, s: SkillInput, name: string): Skill {
    if name in rows then Skill(t.clean(s.displayName), Write(s.years, rows[name].years), s.top, rows[name].source)
    else Skill(t.clean(s.displayName), Write(s.years, None), s.top, UserDeclared)
  }

  /** Every input name has a row with the input's data, the source it had before and, where
      the input leaves the years out, the years it had before; rows of other sources stay;
      user-declared rows not named any more are gone. */
  ghost predicate IsSynced(t: Text, rows: Skills, inputs: seq<SkillInput>, out: Skills) {
    && (forall name :: name in out <==> name in Names(t, inputs) || Kept(rows, name))
    && (forall name :: name in Names(t, inputs) && name in out ==> out[name] == Merged(t, rows, FirstOf(t, inputs, name), name))
    && (forall name :: name in out && name !in Names(t, inputs) && name in rows ==> out[name] == rows[name])
  }

  lemma SyncIsDetermined(t: Text, rows: Skills, inputs: seq<SkillInput>, a: Skills, b: Skills)
    requires IsSynced(t, rows, inputs, a) && IsSynced(t, rows, inputs, b)
    ensures a == b
  {
    forall name | name in a ensures name in b && a[name] == b[name] {}
    forall name | name in b ensures name in a {}
  }

  /** Sending the same list again changes nothing. */
  lemma SyncIsIdempotent(t: Text, rows: Skills, inputs: seq<SkillInput>, once: Skills, twice: Skills)
    requires IsSynced(t, rows, inputs, once) && IsSynced(t, once, inputs, twice)
    ensures once == twice
  {
    forall name ensures (name in once <==> name in twice) && (name in once ==> once[name] == twice[name]) {
      if name in Names(t, inputs) {
        assert once[name] == Merged(t, rows, FirstOf(t, inputs, name), name);
        assert twice[name] == Merged(t, once, FirstOf(t, inputs, name), name);
      } else if name in once {
        assert Kept(rows, name) && once[name] == rows[name];
      }
    }
  }

  /** No source is ever lost or changed: a row of another source keeps it under any list,
      and a name is never both kept and dropped. */
  lemma OtherSourcesSurvive(t: Text, rows: Skills, inputs: seq<SkillInput>, out: Skills, name: string)
    requires IsSynced(t, rows, inputs, out) && Kept(rows, name)
    ensures name in out && out[name].source == rows[name].source
  {
  }

  /** Years that a request leaves out stay as they were, whatever else it changes about the
      skill; years it gives, null included, replace them. */
  lemma OmittedYearsAreKept(t: Text, rows: Skills, inputs: seq<SkillInput>, out: Skills, name: string)
    requires IsSynced(t, rows, inputs, out) && name in Names(t, inputs) && name in rows
    ensures var first := FirstOf(t, inputs, name);
      && name in out
      && (first.years.Omitted? ==> out[name].years == rows[name].years)
      && (first.years.Given? ==> out[name].years == first.years.value)
  {
    assert out[name] == Merged(t, rows, FirstOf(t, inputs, name), name);
  }

  /** The one outcome there is. */
  function Synced(t: Text, rows: Skills, inputs: seq<SkillInput>): (out: Skills)
    ensures IsSynced(t, rows, inputs, out)
  {
    var names := Names(t, inputs);
    map name | name in names + rows.Keys && (name in names || Kept(rows, name)) ::
      if name in names then Merged(t, rows, FirstOf(t, inputs, name), name) else rows[name]
  }

  /** Input i has a name, and is the first of that name. */
  predicate IsFirst(t: Text, inputs: seq<SkillInput>, i: nat) {
    && i < |inputs| && t.lower(t.clean(inputs[i].displayName)) != ""
    && forall j :: 0 <= j < i ==> t.lower(t.clean(inputs[j].displayName)) != t.lower(t.clean(inputs[i].displayName))
  }

  /** The skills after a list was sent, column by column.  The first input of each name sets
      display name, mark and, if it gives them, years; a new skill counts as declared by the
      user, an old one keeps its source.  Skills the list does not name stay as they are if
      they came from elsewhere and go if the user had declared them. */
  ghost predicate FollowsList(t: Text, rows: Skills, inputs: seq<SkillInput>, out: Skills) {
    && (forall i: nat :: IsFirst(t, inputs, i) ==>
         var name, s := t.lower(t.clean(inputs[i].displayName)), inputs[i];
         && name in out && out[name].displayName == t.clean(s.displayName) && out[name].top == s.top
         && out[name].years == (if s.years.Given? then s.years.value else if name in rows then rows[name].years else None)
         && out[name].source == (if name in rows then rows[name].source else UserDeclared))
    && (forall name :: name in out ==>
         || (exists i: nat :: IsFirst(t, inputs, i) && t.lower(t.clean(inputs[i].displayName)) == name)
         || (name in rows && rows[name].source != UserDeclared && out[name] == rows[name]))
    && (forall name :: name in rows && rows[name].source != UserDeclared ==> name in out)
  }

  lemma {:induction false} FirstIsFound(t: Text, inputs: seq<SkillInput>, name: string)
    requires exists i :: 0 <= i < |inputs| && NameOf(t, inputs[i]) == name
    ensures exists i ::
      && 0 <= i < |inputs| && NameOf(t, inputs[i]) == name && inputs[i] == FirstOf(t, inputs, name)
      && forall j :: 0 <= j < i ==> NameOf(t, inputs[j]) != name
    decreases |inputs|
  {
    if NameOf(t, inputs[0]) != name {
      var i :| 0 <= i < |inputs| && NameOf(t, inputs[i]) == name;
      assert inputs[1..][i - 1] == inputs[i];
      FirstIsFound(t, inputs[1..], name);
      var k :| 0 <= k < |inputs[1..]| && NameOf(t, inputs[1..][k]) == name && inputs[1..][k] == FirstOf(t, inputs[1..], name)
        && forall j :: 0 <= j < k ==> NameOf(t, inputs[1..][j]) != name;
      assert inputs[k + 1] == inputs[1..][k];
      forall j | 0 <= j < k + 1 ensures NameOf(t, inputs[j]) != name {
        if j > 0 { assert inputs[1..][j - 1] == inputs[j]; }
      }
    }
  }

  lemma FirstInputDecides(t: Text, rows: Skills, inputs: seq<SkillInput>, out: Skills, i: nat)
    requires IsSynced(t, rows, inputs, out) && IsFirst(t, inputs, i)
    ensures NameOf(t, inputs[i]) in out && out[NameOf(t, inputs[i])] == Merged(t, rows, inputs[i], NameOf(t, inputs[i]))
  {
    var name := NameOf(t, inputs[i]);
    assert name in Names(t, inputs);
    FirstIsFound(t, inputs, name);
    var k :| 0 <= k < |inputs| && NameOf(t, inputs[k]) == name && inputs[k] == FirstOf(t, inputs, name)
      && forall j :: 0 <= j < k ==> NameOf(t, inputs[j]) != name;
    assert k == i;
  }

  lemma SyncFollowsList(t: Text, rows: Skills, inputs: seq<SkillInput>, out: Skills)
    requires IsSynced(t, rows, inputs, out)
    ensures FollowsList(t, rows, inputs, out)
  {
    forall i: nat | IsFirst(t, inputs, i)
      ensures NameOf(t, inputs[i]) in out && out[NameOf(t, inputs[i])] == Merged(t, rows, inputs[i], NameOf(t, inputs[i]))
    {
      FirstInputDecides(t, rows, inputs, out, i);
    }
    forall name | name in out && name in Names(t, inputs)
      ensures exists i: nat :: IsFirst(t, inputs, i) && t.lower(t.clean(inputs[i].displayName)) == name
    {
      FirstIsFound(t, inputs, name);
      var i :| 0 <= i < |inputs| && NameOf(t, inputs[i]) == name && forall j :: 0 <= j < i ==> NameOf(t, inputs[j]) != name;
      assert IsFirst(t, inputs, i);
    }
  }

  // ---- the loops ---------------------------------------------------------------

  datatype NamedSkill = NamedSkill(name: string, input: SkillInput)

  /** The list holds the first input of each name, each name once. */
  ghost predicate IsUniqueList(t: Text, inputs: seq<SkillInput>, unique: seq<NamedSkill>) {
    && (forall i, j :: 0 <= i < j < |unique| ==> unique[i].name != unique[j].name)
    && (forall name :: name in Names(t, inputs) <==> exists i :: 0 <= i < |unique| && unique[i].name == name)
    && (forall i :: 0 <= i < |unique| ==> unique[i].name in Names(t, inputs) && unique[i].input == FirstOf(t, inputs, unique[i].name))
  }

  lemma {:induction false} FirstOfPrefix(t: Text, front: seq<SkillInput>, last: SkillInput, name: string)
    requires exists i :: 0 <= i < |front| && NameOf(t, front[i]) == name
    ensures exists i :: 0 <= i < |front + [last]| && NameOf(t, (front + [last])[i]) == name
    ensures FirstOf(t, front + [last], name) == FirstOf(t, front, name)
    decreases |front|
  {
    var i :| 0 <= i < |front| && NameOf(t, front[i]) == name;
    assert (front + [last])[i] == front[i];
    if NameOf(t, front[0]) != name {
      assert front[1..][i - 1] == front[i];
      FirstOfPrefix(t, front[1..], last, name);
      assert (front + [last])[1..] == front[1..] + [last];
    }
  }

  lemma {:induction false} FirstOfNew(t: Text, front: seq<SkillInput>, last: SkillInput)
    requires forall i :: 0 <= i < |front| ==> NameOf(t, front[i]) != NameOf(t, last)
    ensures (front + [last])[|front|] == last && FirstOf(t, front + [last], NameOf(t, last)) == last
    decreases |front|
  {
    assert (front + [last])[|front|] == last;
    if front != [] {
      assert (front + [last])[1..] == front[1..] + [last];
      FirstOfNew(t, front[1..], last);
    }
  }

  lemma NamesSnoc(t: Text, front: seq<SkillInput>, last: SkillInput)
    ensures Names(t, front + [last]) == Names(t, front) + if NameOf(t, last) != "" then {NameOf(t, last)} else {}
  {
    var all := front + [last];
    assert all[|front|] == last && forall i :: 0 <= i < |front| ==> all[i] == front[i];
    forall name | name in Names(t, front) ensures name in Names(t, all) {
      var i :| 0 <= i < |front| && NameOf(t, front[i]) == name && name != "";
      assert NameOf(t, all[i]) == name;
    }
    if NameOf(t, last) != "" { assert NameOf(t, all[|front|]) in Names(t, all); }
  }

  /** A name seen before, or no name, leaves the list as it is. */
  lemma UniqueListSkip(t: Text, front: seq<SkillInput>, unique: seq<NamedSkill>, last: SkillInput)
    requires IsUniqueList(t, front, unique) && (NameOf(t, last) == "" || NameOf(t, last) in Names(t, front))
    ensures IsUniqueList(t, front + [last], unique)
  {
    NamesSnoc(t, front, last);
    assert Names(t, front + [last]) == Names(t, front);
    forall i | 0 <= i < |unique| ensures unique[i].input == FirstOf(t, front + [last], unique[i].name) {
      FirstOfPrefix(t, front, last, unique[i].name);
    }
  }

  lemma NewNameIsFirst(t: Text, front: seq<SkillInput>, last: SkillInput)
    requires NameOf(t, last) != "" && NameOf(t, last) !in Names(t, front)
    ensures NameOf(t, last) in Names(t, front + [last]) && FirstOf(t, front + [last], NameOf(t, last)) == last
  {
    NamesSnoc(t, front, last);
    FirstOfNew(t, front, last);
  }

  lemma UniqueListAdd(t: Text, front: seq<SkillInput>, unique: seq<NamedSkill>, last: SkillInput)
    requires IsUniqueList(t, front, unique) && NameOf(t, last) != "" && NameOf(t, last) !in Names(t, front)
    ensures IsUniqueList(t, front + [last], unique + [NamedSkill(NameOf(t, last), last)])
  {
    var name, out := NameOf(t, last), unique + [NamedSkill(NameOf(t, last), last)];
    NamesSnoc(t, front, last);
    NewNameIsFirst(t, front, last);
    forall i | 0 <= i < |out| ensures out[i].name in Names(t, front + [last]) && out[i].input == FirstOf(t, front + [last], out[i].name) {
      if i < |unique| { FirstOfPrefix(t, front, last, unique[i].name); }
    }
    forall n | n in Names(t, front + [last]) ensures exists i :: 0 <= i < |out| && out[i].name == n {
      if n == name {
        assert out[|unique|].name == n;
      } else {
        var i :| 0 <= i < |unique| && unique[i].name == n;
        assert out[i].name == n;
      }
    }
  }

  method Dedupe(t: Text, inputs: seq<SkillInput>) returns (unique: seq<NamedSkill>)
    ensures IsUniqueList(t, inputs, unique)
  {
    unique := [];
    var seen: set<string> := {};
    for k := 0 to |inputs|
      invariant IsUniqueList(t, inputs[..k], unique)
      invariant seen == Names(t, inputs[..k])
    {
      var s := inputs[k];
      assert inputs[..k + 1] == inputs[..k] + [s];
      NamesSnoc(t, inputs[..k], s);
      var name := t.lower(t.clean(s.displayName));
      if name == "" || name in seen {
        UniqueListSkip(t, inputs[..k], unique, s);
        continue;
      }
      UniqueListAdd(t, inputs[..k], unique, s);
      seen := seen + {name};
      unique := unique + [NamedSkill(name, s)];
    }
    assert inputs[..|inputs|] == inputs;
  }

  /** What the upserts have done after the first k of them. */
  ghost predicate Upserted(t: Text, rows: Skills, kept: Skills, unique: seq<NamedSkill>, k: nat, out: Skills)
    requires k <= |unique|
  {
    && (forall name :: name in out <==> name in kept || exists i :: 0 <= i < k && unique[i].name == name)
    && (forall i :: 0 <= i < k ==> unique[i].name in out && out[unique[i].name] == Merged(t, rows, unique[i].input, unique[i].name))
    && (forall name :: name in kept && (forall i :: 0 <= i < k ==> unique[i].name != name) ==> name in out && out[name] == kept[name])
  }

  /** The sync: dedupe by normalised name, delete what is no longer declared, upsert the rest. */
  method SyncSkills(t: Text, rows: Skills, inputs: seq<SkillInput>) returns (out: Skills)
    ensures IsSynced(t, rows, inputs, out)
    ensures FollowsList(t, rows, inputs, out)
  {
    var unique := Dedupe(t, inputs);
    var active := set i | 0 <= i < |unique| :: unique[i].name;
    var kept := map name | name in rows && !(rows[name].source == UserDeclared && name !in active) :: rows[name];
    out := kept;
    for k := 0 to |unique|
      invariant Upserted(t, rows, kept, unique, k, out)
    {
      var s := unique[k];
      UpsertStep(t, rows, kept, unique, k, out);
      if s.name in out {
        out := out[s.name := out[s.name].(displayName := t.clean(s.input.displayName), top := s.input.top)];
        if s.input.years.Given? { out := out[s.name := out[s.name].(years := s.input.years.value)]; }
      } else {
        out := out[s.name := Skill(t.clean(s.input.displayName), Write(s.input.years, None), s.input.top, UserDeclared)];
      }
    }
    SyncDone(t, rows, inputs, unique, kept, out);
    SyncFollowsList(t, rows, inputs, out);
  }

  lemma UpsertStep(t: Text, rows: Skills, kept: Skills, unique: seq<NamedSkill>, k: nat, out: Skills)
    requires k < |unique| && Upserted(t, rows, kept, unique, k, out)
    requires forall i, j :: 0 <= i < j < |unique| ==> unique[i].name != unique[j].name
    requires forall name :: name in kept ==> name in rows && kept[name] == rows[name]
    requires forall name :: name in rows && name !in kept ==> forall i :: 0 <= i < |unique| ==> unique[i].name != name
    ensures Upserted(t, rows, kept, unique, k + 1, out[unique[k].name := Merged(t, rows, unique[k].input, unique[k].name)])
    ensures unique[k].name in out <==> unique[k].name in rows
    ensures unique[k].name in out ==>
      out[unique[k].name].source == rows[unique[k].name].source && out[unique[k].name].years == rows[unique[k].name].years
  {
  }

  lemma SyncDone(t: Text, rows: Skills, inputs: seq<SkillInput>, unique: seq<NamedSkill>, kept: Skills, out: Skills)
    requires IsUniqueList(t, inputs, unique) && Upserted(t, rows, kept, unique, |unique|, out)
    requires forall name :: name in kept <==>
      name in rows && (rows[name].source != UserDeclared || exists i :: 0 <= i < |unique| && unique[i].name == name)
    requires forall name :: name in kept ==> kept[name] == rows[name]
    ensures IsSynced(t, rows, inputs, out)
  {
    forall name | name in Names(t, inputs) && name in out ensures out[name] == Merged(t, rows, FirstOf(t, inputs, name), name) {
      var i :| 0 <= i < |unique| && unique[i].name == name;
    }
  }

  // ---- saving ------------------------------------------------------------------

  /** `details` and `preferences` hold the columns of profile and preferences rows. */
  datatype Candidate = Candidate(
    revision: nat, details: map<string, string>, preferences: Option<map<string, string>>, skills: Skills)

  datatype Payload = Payload(
    expected: int, details: map<string, string>, preferences: Option<map<string, string>>, skills: Option<seq<SkillInput>>)

  function RevisionOf(c: Option<Candidate>): nat {
    if c.Some? then c.value.revision else 0
  }

  function Columns(c: Option<Candidate>): map<string, string> {
    if c.Some? then c.value.details else map[]
  }

  function PreferencesOf(c: Option<Candidate>): Option<map<string, string>> {
    if c.Some? then c.value.preferences else None
  }

  function SkillsOf(c: Option<Candidate>): Skills {
    if c.Some? then c.value.skills else map[]
  }

  /** A save goes through exactly for the current revision, 0 standing for no profile. */
  predicate SaveAllowed(existing: Option<Candidate>, p: Payload) {
    if existing.Some? then existing.value.revision == p.expected else p.expected == 0
  }

  ghost predicate IsSaved(t: Text, existing: Option<Candidate>, p: Payload, out: Candidate) {
    && out.revision == RevisionOf(existing) + 1
    && out.details == Columns(existing) + p.details
    && (p.preferences.None? ==> out.preferences == PreferencesOf(existing))
    && (p.preferences.Some? ==>
          out.preferences == Some((if PreferencesOf(existing).Some? then PreferencesOf(existing).value else map[]) + p.preferences.value))
    && (p.skills.None? ==> out.skills == SkillsOf(existing))
    && (p.skills.Some? ==> IsSynced(t, SkillsOf(existing), p.skills.value, out.skills))
  }

  /** The columns given have their new values, all others their old ones. */
  ghost predicate Overridden(before: map<string, string>, given: map<string, string>, after: map<string, string>) {
    && (forall column :: column in after <==> column in before || column in given)
    && (forall column :: column in given ==> column in after && after[column] == given[column])
    && (forall column :: column in before && column !in given ==> column in after && after[column] == before[column])
  }

  /** What a save leaves behind, column by column. */
  ghost predicate StoresPayload(t: Text, existing: Option<Candidate>, p: Payload, out: Candidate) {
    var was := if existing.Some? then existing.value else Candidate(0, map[], None, map[]);
    && out.revision == was.revision + 1
    && Overridden(was.details, p.details, out.details)
    && (if p.preferences.None? then out.preferences == was.preferences
        else
          && out.preferences.Some?
          && Overridden(if was.preferences.Some? then was.preferences.value else map[], p.preferences.value, out.preferences.value))
    && (if p.skills.None? then out.skills == was.skills else FollowsList(t, was.skills, p.skills.value, out.skills))
  }

  lemma SavedStoresPayload(t: Text, existing: Option<Candidate>, p: Payload, out: Candidate)
    requires IsSaved(t, existing, p, out)
    ensures StoresPayload(t, existing, p, out)
  {
    if p.skills.Some? { SyncFollowsList(t, SkillsOf(existing), p.skills.value, out.skills); }
  }

  /** `saveCandidateData` inside its transaction; None is the conflict. */
  method SaveCandidateData(t: Text, existing: Option<Candidate>, p: Payload) returns (saved: Option<Candidate>)
    ensures saved.Some? <==> SaveAllowed(existing, p)
    ensures saved.Some? ==> IsSaved(t, existing, p, saved.value)
    ensures saved.Some? <==> (existing.None? && p.expected == 0) || (existing.Some? && p.expected == existing.value.revision)
    ensures saved.Some? ==> StoresPayload(t, existing, p, saved.value)
  {
    if existing.None? && p.expected != 0 { return None; }
    if existing.Some? && existing.value.revision != p.expected { return None; }
    var nextRevision := RevisionOf(existing) + 1;
    var row := if existing.Some? then existing.value.(revision := nextRevision) else Candidate(nextRevision, map[], None, map[]);
    row := row.(details := row.details + p.details);
    if p.preferences.Some? {
      row := row.(preferences := Some((if row.preferences.Some? then row.preferences.value else map[]) + p.preferences.value));
    }
    if p.skills.Some? {
      var skills := SyncSkills(t, row.skills, p.skills.value);
      row := row.(skills := skills);
    }
    saved := Some(row);
    SavedStoresPayload(t, existing, p, row);
  }

  function Saved(t: Text, existing: Option<Candidate>, p: Payload): (out: Candidate)
    ensures IsSaved(t, existing, p, out)
  {
    var preferences := PreferencesOf(existing);
    Candidate(
      RevisionOf(existing) + 1,
      Columns(existing) + p.details,
      if p.preferences.None? then preferences else Some((if preferences.Some? then preferences.value else map[]) + p.preferences.value),
      if p.skills.None? then SkillsOf(existing) else Synced(t, SkillsOf(existing), p.skills.value))
  }

  lemma SaveIsDetermined(t: Text, existing: Option<Candidate>, p: Payload, a: Candidate, b: Candidate)
    requires IsSaved(t, existing, p, a) && IsSaved(t, existing, p, b)
    ensures a == b
  {
    if p.skills.Some? { SyncIsDetermined(t, SkillsOf(existing), p.skills.value, a.skills, b.skills); }
  }
}
