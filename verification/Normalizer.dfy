/** Normalising location restrictions, and the script that redoes it for stored jobs. */
module Normalizer {
  import opened Ordering

  datatype Resolution = Resolved(alpha2: string, canonical: string) | Unresolved(normalized: string)

  /** A provider lists a country by text or as an object; an empty code counts as none. */
  datatype Restriction = Named(text: string) | Structured(alpha2: string, name: string, slug: string)

  datatype Timezone = Hours(value: real) | Written(text: string)

  /** `resolve` looks a text up in the country tables; `offset` gives minutes, None for what
      is no number; `show` is String() on numbers. */
  datatype Env = Env(
    resolve: string -> Resolution, trim: string -> string, slugify: string -> string,
    offset: Timezone -> Option<int>, show: real -> string)

  datatype Country = Country(alpha2: Option<string>, name: string, slug: string)

  datatype Parts = Parts(codes: seq<string>, labels: seq<string>, unresolved: seq<string>, countries: seq<Country>)

  const NOTHING := Parts([], [], [], [])

  function Add(a: Parts, b: Parts): Parts {
    Parts(a.codes + b.codes, a.labels + b.labels, a.unresolved + b.unresolved, a.countries + b.countries)
  }

  // ---- one restriction ---------------------------------------------------------

  /** What is kept of a text that does not resolve. */
  function KeptText(env: Env, text: string): string {
    if env.resolve(text).Unresolved? && env.resolve(text).normalized != "" then env.resolve(text).normalized else env.trim(text)
  }

  function FromText(env: Env, text: string): Parts {
    match env.resolve(text)
    case Resolved(alpha2, canonical) => Parts([alpha2], [canonical], [], [Country(Some(alpha2), canonical, env.slugify(canonical))])
    case Unresolved(_) =>
      var kept := KeptText(env, text);
      if kept == "" then NOTHING else Parts([], [kept], [kept], [])
  }

  function FromName(env: Env, name: string, slug: string): Parts {
    match env.resolve(name)
    case Resolved(alpha2, canonical) => Parts([alpha2], [canonical], [], [Country(Some(alpha2), canonical, slug)])
    case Unresolved(_) => Parts([], [name], [name], [Country(None, name, slug)])
  }

  function FromRestriction(env: Env, r: Restriction): Parts {
    match r
    case Named(text) => FromText(env, text)
    case Structured(alpha2, name, slug) =>
      if alpha2 != "" && env.resolve(alpha2).Resolved? then
        var found := env.resolve(alpha2);
        Parts([found.alpha2], [found.canonical], [], [Country(Some(found.alpha2), found.canonical, slug)])
      else FromName(env, name, slug)
  }

  function Collected(env: Env, rs: seq<Restriction>): Parts {
    if rs == [] then NOTHING else Add(Collected(env, rs[..|rs| - 1]), FromRestriction(env, rs[|rs| - 1]))
  }

  // ---- duplicates --------------------------------------------------------------

  /** Array.from(new Set(xs)): the first occurrence of each. */
  function Unique<T(==)>(xs: seq<T>): seq<T> {
    if xs == [] then []
    else
      var front, last := Unique(xs[..|xs| - 1]), xs[|xs| - 1];
      if last in xs[..|xs| - 1] then front else front + [last]
  }

  function CountryKey(c: Country): string {
    if c.alpha2.Some? then c.alpha2.value else c.name
  }

  function UniqueCountries(cs: seq<Country>): seq<Country> {
    if cs == [] then []
    else
      var front, last := cs[..|cs| - 1], cs[|cs| - 1];
      UniqueCountries(front) + if exists i :: 0 <= i < |front| && CountryKey(front[i]) == CountryKey(last) then [] else [last]
  }

  function SortTexts(xs: seq<string>): seq<string> {
    Sort(xs, (a: string, b: string) => TextLess(a, b))
  }

  function NormalizedLocations(env: Env, rs: seq<Restriction>): Parts {
    var all := Collected(env, rs);
    Parts(SortTexts(Unique(all.codes)), Unique(all.labels), Unique(all.unresolved), UniqueCountries(all.countries))
  }

  // ---- what comes out, restriction by restriction -------------------------------

  /** How the tables read a restriction: by its code if it has one that resolves, otherwise
      by its text or name. */
  function Reading(env: Env, r: Restriction): Resolution {
    match r
    case Named(text) => env.resolve(text)
    case Structured(alpha2, name, _) =>
      if alpha2 != "" && env.resolve(alpha2).Resolved? then env.resolve(alpha2) else env.resolve(name)
  }

  function CodeGiven(env: Env, r: Restriction): Option<string> {
    match Reading(env, r) case Resolved(alpha2, _) => Some(alpha2) case Unresolved(_) => None
  }

  /** The canonical label; of what does not resolve a name as it is, a text cleaned up, if
      anything is left of it. */
  function LabelGiven(env: Env, r: Restriction): Option<string> {
    match Reading(env, r)
    case Resolved(_, canonical) => Some(canonical)
    case Unresolved(normalized) =>
      if r.Structured? then Some(r.name)
      else if normalized != "" then Some(normalized)
      else if env.trim(r.text) != "" then Some(env.trim(r.text))
      else None
  }

  function UnresolvedGiven(env: Env, r: Restriction): Option<string> {
    if Reading(env, r).Resolved? then None else LabelGiven(env, r)
  }

  function CountryGiven(env: Env, r: Restriction): Option<Country> {
    match r
    case Named(_) =>
      (match Reading(env, r)
       case Resolved(alpha2, canonical) => Some(Country(Some(alpha2), canonical, env.slugify(canonical)))
       case Unresolved(_) => None)
    case Structured(_, name, slug) =>
      match Reading(env, r)
      case Resolved(alpha2, canonical) => Some(Country(Some(alpha2), canonical, slug))
      case Unresolved(_) => Some(Country(None, name, slug))
  }

  /** Everything given, once each, in the order in which it was given first. */
  ghost predicate ListsFirsts(out: seq<string>, rs: seq<Restriction>, given: Restriction -> Option<string>) {
    && Distinct(out)
    && (forall y :: y in out <==> IsGiven(rs, given, y))
    && forall a, b :: 0 <= a < b < |out| ==> GivenBefore(rs, given, out[a], out[b])
  }

  ghost predicate IsGiven<T>(rs: seq<Restriction>, given: Restriction -> Option<T>, y: T) {
    exists i :: 0 <= i < |rs| && given(rs[i]) == Some(y)
  }

  ghost predicate GivenBefore(rs: seq<Restriction>, given: Restriction -> Option<string>, x: string, y: string) {
    exists i :: 0 <= i < |rs| && given(rs[i]) == Some(x) && forall j :: 0 <= j <= i ==> given(rs[j]) != Some(y)
  }

  /** One country for each key that is given, the first with that key. */
  ghost predicate ListsFirstCountries(env: Env, out: seq<Country>, rs: seq<Restriction>) {
    && (forall a, b :: 0 <= a < b < |out| ==> CountryKey(out[a]) != CountryKey(out[b]))
    && (forall a :: 0 <= a < |out| ==> IsFirstCountry(env, rs, out[a]))
    && (forall i :: 0 <= i < |rs| && CountryGiven(env, rs[i]).Some? ==> HasKey(out, CountryKey(CountryGiven(env, rs[i]).value)))
  }

  ghost predicate IsFirstCountry(env: Env, rs: seq<Restriction>, c: Country) {
    exists i ::
      && 0 <= i < |rs| && CountryGiven(env, rs[i]) == Some(c)
      && forall j :: 0 <= j < i && CountryGiven(env, rs[j]).Some? ==> CountryKey(CountryGiven(env, rs[j]).value) != CountryKey(c)
  }

  ghost predicate HasKey(cs: seq<Country>, key: string) {
    exists a :: 0 <= a < |cs| && CountryKey(cs[a]) == key
  }

  /** The four lists of a normalisation. */
  ghost predicate ReadsAll(env: Env, rs: seq<Restriction>, parts: Parts) {
    && Increasing(parts.codes, (a: string, b: string) => TextLess(a, b))
    && (forall code :: code in parts.codes <==> IsGiven(rs, (r: Restriction) => CodeGiven(env, r), code))
    && ListsFirsts(parts.labels, rs, (r: Restriction) => LabelGiven(env, r))
    && ListsFirsts(parts.unresolved, rs, (r: Restriction) => UnresolvedGiven(env, r))
    && ListsFirstCountries(env, parts.countries, rs)
  }

  function Gathered<T>(rs: seq<Restriction>, given: Restriction -> Option<T>): seq<T> {
    if rs == [] then []
    else Gathered(rs[..|rs| - 1], given) + if given(rs[|rs| - 1]).Some? then [given(rs[|rs| - 1]).value] else []
  }

  lemma {:induction false} CollectedIsGathered(env: Env, rs: seq<Restriction>)
    ensures var all := Collected(env, rs);
      && all.codes == Gathered(rs, (r: Restriction) => CodeGiven(env, r))
      && all.labels == Gathered(rs, (r: Restriction) => LabelGiven(env, r))
      && all.unresolved == Gathered(rs, (r: Restriction) => UnresolvedGiven(env, r))
      && all.countries == Gathered(rs, (r: Restriction) => CountryGiven(env, r))
    decreases |rs|
  {
    if rs != [] { CollectedIsGathered(env, rs[..|rs| - 1]); }
  }

  lemma {:induction false} GatheredIsGiven<T>(rs: seq<Restriction>, given: Restriction -> Option<T>, y: T)
    ensures y in Gathered(rs, given) <==> IsGiven(rs, given, y)
    decreases |rs|
  {
    if rs != [] {
      var front, last := rs[..|rs| - 1], rs[|rs| - 1];
      GatheredIsGiven(front, given, y);
      if IsGiven(front, given, y) {
        var i :| 0 <= i < |front| && given(front[i]) == Some(y);
        assert rs[i] == front[i];
      }
      if i :| 0 <= i < |rs| && given(rs[i]) == Some(y) {
        if i < |front| { assert front[i] == rs[i]; }
      }
    }
  }

  lemma {:induction false} UniqueListsFirsts(rs: seq<Restriction>, given: Restriction -> Option<string>)
    ensures ListsFirsts(Unique(Gathered(rs, given)), rs, given)
    decreases |rs|
  {
    var all := Gathered(rs, given);
    UniqueFacts(all);
    forall y ensures y in Unique(all) <==> IsGiven(rs, given, y) { GatheredIsGiven(rs, given, y); }
    if rs != [] {
      var front, last := rs[..|rs| - 1], rs[|rs| - 1];
      var before, out := Unique(Gathered(front, given)), Unique(all);
      UniqueListsFirsts(front, given);
      if given(last).Some? { assert all[..|all| - 1] == Gathered(front, given) && all[|all| - 1] == given(last).value; }
      else { assert all == Gathered(front, given); }
      assert rs == front + [last] && before <= out && |out| <= |before| + 1;
      forall a, b | 0 <= a < b < |out| ensures GivenBefore(rs, given, out[a], out[b]) {
        EarlierIsGivenBefore(front, last, given, before, out, a, b);
      }
    }
  }

  lemma EarlierIsGivenBefore(
    front: seq<Restriction>, last: Restriction, given: Restriction -> Option<string>, before: seq<string>, out: seq<string>, a: nat, b: nat)
    requires ListsFirsts(before, front, given) && before <= out && |out| <= |before| + 1 && a < b < |out|
    requires Distinct(out)
    ensures GivenBefore(front + [last], given, out[a], out[b])
  {
    var rs := front + [last];
    assert out[a] == before[a] && before[a] in before;
    if b < |before| {
      assert GivenBefore(front, given, out[a], out[b]);
      var i :| 0 <= i < |front| && given(front[i]) == Some(out[a]) && forall j :: 0 <= j <= i ==> given(front[j]) != Some(out[b]);
      assert rs[i] == front[i] && forall j :: 0 <= j <= i ==> rs[j] == front[j];
    } else {
      assert out[b] !in before;
      var i :| 0 <= i < |front| && given(front[i]) == Some(out[a]);
      assert rs[i] == front[i];
      forall j | 0 <= j <= i ensures given(rs[j]) != Some(out[b]) {
        assert rs[j] == front[j];
      }
    }
  }

  lemma {:induction false} UniqueCountriesListFirsts(env: Env, rs: seq<Restriction>)
    ensures ListsFirstCountries(env, UniqueCountries(Gathered(rs, (r: Restriction) => CountryGiven(env, r))), rs)
    decreases |rs|
  {
    if rs != [] {
      var given := (r: Restriction) => CountryGiven(env, r);
      var front, last := rs[..|rs| - 1], rs[|rs| - 1];
      var all, before := Gathered(rs, given), Gathered(front, given);
      UniqueCountriesListFirsts(env, front);
      if given(last).None? {
        assert all == before;
      } else {
        assert all[..|all| - 1] == before && all[|all| - 1] == given(last).value;
      }
      FirstCountriesSnoc(env, front, last, before, UniqueCountries(before), UniqueCountries(all));
      assert rs == front + [last];
    }
  }

  /** One more restriction adds its country unless one with its key was given before. */
  lemma FirstCountriesSnoc(
    env: Env, front: seq<Restriction>, last: Restriction, given: seq<Country>, before: seq<Country>, out: seq<Country>)
    requires ListsFirstCountries(env, before, front) && given == Gathered(front, (r: Restriction) => CountryGiven(env, r))
    requires var c := CountryGiven(env, last);
      out == before + if c.None? || exists i :: 0 <= i < |given| && CountryKey(given[i]) == CountryKey(c.value) then [] else [c.value]
    ensures ListsFirstCountries(env, out, front + [last])
  {
    var rs, c := front + [last], CountryGiven(env, last);
    forall i | 0 <= i < |given| ensures HasKey(before, CountryKey(given[i])) && exists k :: 0 <= k < |front| && CountryGiven(env, front[k]) == Some(given[i]) {
      assert given[i] in given;
      GatheredIsGiven(front, (r: Restriction) => CountryGiven(env, r), given[i]);
    }
    forall a | 0 <= a < |out| ensures IsFirstCountry(env, rs, out[a]) {
      if a < |before| {
        assert IsFirstCountry(env, front, before[a]);
        var i :| 0 <= i < |front| && CountryGiven(env, front[i]) == Some(before[a])
          && forall j :: 0 <= j < i && CountryGiven(env, front[j]).Some? ==> CountryKey(CountryGiven(env, front[j]).value) != CountryKey(before[a]);
        assert rs[i] == front[i] && forall j :: 0 <= j < i ==> rs[j] == front[j];
      } else {
        assert rs[|front|] == last;
        forall j | 0 <= j < |front| && CountryGiven(env, rs[j]).Some? ensures CountryKey(CountryGiven(env, rs[j]).value) != CountryKey(c.value) {
          assert rs[j] == front[j];
          GatheredIsGiven(front, (r: Restriction) => CountryGiven(env, r), CountryGiven(env, front[j]).value);
        }
      }
    }
    forall a, b | 0 <= a < b < |out| ensures CountryKey(out[a]) != CountryKey(out[b]) {
      if b == |before| {
        assert IsFirstCountry(env, front, before[a]);
        var i :| 0 <= i < |front| && CountryGiven(env, front[i]) == Some(before[a]);
        GatheredIsGiven(front, (r: Restriction) => CountryGiven(env, r), before[a]);
      }
    }
    forall i | 0 <= i < |rs| && CountryGiven(env, rs[i]).Some? ensures HasKey(out, CountryKey(CountryGiven(env, rs[i]).value)) {
      if i < |front| {
        assert rs[i] == front[i];
        var a :| 0 <= a < |before| && CountryKey(before[a]) == CountryKey(CountryGiven(env, front[i]).value);
        assert out[a] == before[a];
      } else if |out| > |before| {
        assert out[|before|] == c.value;
      } else {
        var k :| 0 <= k < |given| && CountryKey(given[k]) == CountryKey(c.value);
        var a :| 0 <= a < |before| && CountryKey(before[a]) == CountryKey(given[k]);
        assert out[a] == before[a];
      }
    }
  }

  lemma NormalizedReadsAll(env: Env, rs: seq<Restriction>)
    ensures ReadsAll(env, rs, NormalizedLocations(env, rs))
  {
    var codes := Collected(env, rs).codes;
    CollectedIsGathered(env, rs);
    UniqueListsFirsts(rs, (r: Restriction) => CodeGiven(env, r));
    UniqueListsFirsts(rs, (r: Restriction) => LabelGiven(env, r));
    UniqueListsFirsts(rs, (r: Restriction) => UnresolvedGiven(env, r));
    UniqueCountriesListFirsts(env, rs);
    SortedTextsAre(Unique(codes));
  }

  lemma SortedTextsAre(xs: seq<string>)
    requires Distinct(xs)
    ensures Increasing(SortTexts(xs), (a: string, b: string) => TextLess(a, b))
    ensures forall x :: x in SortTexts(xs) <==> x in xs
  {
    var less := (a: string, b: string) => TextLess(a, b);
    TextLessIsTotal(Elems(xs));
    SortSorts(xs, less);
    forall x ensures x in SortTexts(xs) <==> x in xs { assert x in Elems(SortTexts(xs)) <==> x in Elems(xs); }
  }

  lemma TextLessIsTotal(s: set<string>)
    ensures StrictTotalOn((a: string, b: string) => TextLess(a, b), s)
  {
    var less := (a: string, b: string) => TextLess(a, b);
    forall a, b, c | a in s && b in s && c in s
      ensures !less(a, a) && (less(a, b) && less(b, c) ==> less(a, c)) && (a != b ==> less(a, b) || less(b, a))
    {
      TextLessIrreflexive(a);
      if less(a, b) && less(b, c) { TextLessTransitive(a, b, c); }
      if a != b { TextLessTotal(a, b); }
    }
  }

  method NormalizeLocationRestrictions(env: Env, restrictions: seq<Restriction>) returns (parts: Parts)
    ensures parts == NormalizedLocations(env, restrictions)
    ensures ReadsAll(env, restrictions, parts)
  {
    var codes: seq<string>, labels: seq<string>, unresolved: seq<string>, countries: seq<Country> := [], [], [], [];
    for k := 0 to |restrictions|
      invariant Parts(codes, labels, unresolved, countries) == Collected(env, restrictions[..k])
    {
      assert restrictions[..k + 1][..k] == restrictions[..k];
      match restrictions[k] {
        case Named(text) =>
          var found := env.resolve(text);
          if found.Resolved? {
            codes, labels := codes + [found.alpha2], labels + [found.canonical];
            countries := countries + [Country(Some(found.alpha2), found.canonical, env.slugify(found.canonical))];
          } else {
            var trimmed := if found.normalized != "" then found.normalized else env.trim(text);
            if trimmed != "" { unresolved, labels := unresolved + [trimmed], labels + [trimmed]; }
          }
        case Structured(alpha2, name, slug) =>
          var byCode := if alpha2 != "" then env.resolve(alpha2) else Unresolved("");
          var found := if byCode.Resolved? then byCode else env.resolve(name);
          if found.Resolved? {
            codes, labels := codes + [found.alpha2], labels + [found.canonical];
            countries := countries + [Country(Some(found.alpha2), found.canonical, slug)];
          } else {
            unresolved, labels := unresolved + [name], labels + [name];
            countries := countries + [Country(None, name, slug)];
          }
      }
    }
    assert restrictions[..|restrictions|] == restrictions;
    var uniqueCountries := KeepFirstCountries(countries);
    parts := Parts(SortTexts(Unique(codes)), Unique(labels), Unique(unresolved), uniqueCountries);
    NormalizedReadsAll(env, restrictions);
  }

  method KeepFirstCountries(countries: seq<Country>) returns (kept: seq<Country>)
    ensures kept == UniqueCountries(countries)
  {
    kept := [];
    var seen: set<string> := {};
    for k := 0 to |countries|
      invariant kept == UniqueCountries(countries[..k])
      invariant forall key :: key in seen <==> exists i :: 0 <= i < k && CountryKey(countries[i]) == key
    {
      var c := countries[k];
      assert countries[..k + 1][..k] == countries[..k];
      assert CountryKey(c) in seen <==> exists i :: 0 <= i < |countries[..k]| && CountryKey(countries[..k][i]) == CountryKey(c);
      if CountryKey(c) !in seen {
        seen := seen + {CountryKey(c)};
        kept := kept + [c];
      }
    }
    assert countries[..|countries|] == countries;
  }

  // ---- time zones and scope ----------------------------------------------------

  function Offsets(env: Env, tzs: seq<Timezone>): seq<int> {
    if tzs == [] then []
    else
      var last := env.offset(tzs[|tzs| - 1]);
      Offsets(env, tzs[..|tzs| - 1]) + if last.Some? then [last.value] else []
  }

  method NormalizeTimezoneOffsetMinutes(env: Env, tzs: seq<Timezone>) returns (offsets: seq<int>)
    ensures offsets == Sort(Unique(Offsets(env, tzs)), (a: int, b: int) => a < b)
    ensures Increasing(offsets, (a: int, b: int) => a < b)
    ensures forall o :: o in offsets <==> exists tz :: tz in tzs && env.offset(tz) == Some(o)
  {
    offsets := [];
    for k := 0 to |tzs|
      invariant offsets == Offsets(env, tzs[..k])
    {
      assert tzs[..k + 1][..k] == tzs[..k];
      var minutes := env.offset(tzs[k]);
      if minutes.Some? { offsets := offsets + [minutes.value]; }
    }
    assert tzs[..|tzs|] == tzs;
    OffsetsAre(env, tzs);
    UniqueFacts(offsets);
    SortSorts(Unique(offsets), (a: int, b: int) => a < b);
    var listed := Unique(offsets);
    offsets := Sort(listed, (a: int, b: int) => a < b);
    assert Elems(offsets) == Elems(listed);
    forall o ensures o in offsets <==> o in listed { assert o in Elems(offsets) <==> o in Elems(listed); }
  }

  lemma {:induction false} OffsetsAre(env: Env, tzs: seq<Timezone>)
    ensures forall o :: o in Offsets(env, tzs) <==> exists tz :: tz in tzs && env.offset(tz) == Some(o)
    decreases |tzs|
  {
    if tzs != [] {
      OffsetsAre(env, tzs[..|tzs| - 1]);
      assert tzs == tzs[..|tzs| - 1] + [tzs[|tzs| - 1]];
    }
  }

  datatype Scope = Worldwide | CountryLimited | TimezoneLimited | CountryAndTimezoneLimited

  function ScopeOf(parts: Parts, timezones: seq<string>, offsets: seq<int>): Scope {
    var hasCountries := |parts.codes| > 0 || |parts.labels| > 0 || |parts.unresolved| > 0;
    var hasTimezones := |offsets| > 0 || |timezones| > 0;
    if hasCountries && hasTimezones then CountryAndTimezoneLimited
    else if hasCountries then CountryLimited
    else if hasTimezones then TimezoneLimited
    else Worldwide
  }

  lemma ScopeMeans(parts: Parts, timezones: seq<string>, offsets: seq<int>)
    ensures var somewhere, sometime := parts.codes != [] || parts.labels != [] || parts.unresolved != [], offsets != [] || timezones != [];
      && (ScopeOf(parts, timezones, offsets) == Worldwide <==> !somewhere && !sometime)
      && (ScopeOf(parts, timezones, offsets) == CountryLimited <==> somewhere && !sometime)
      && (ScopeOf(parts, timezones, offsets) == TimezoneLimited <==> !somewhere && sometime)
      && (ScopeOf(parts, timezones, offsets) == CountryAndTimezoneLimited <==> somewhere && sometime)
  {
  }

  // ---- normalising twice -------------------------------------------------------

  lemma {:induction false} UniqueFacts<T>(xs: seq<T>)
    ensures Distinct(Unique(xs)) && forall x :: x in Unique(xs) <==> x in xs
    decreases |xs|
  {
    if xs != [] {
      UniqueFacts(xs[..|xs| - 1]);
      assert xs == xs[..|xs| - 1] + [xs[|xs| - 1]];
    }
  }

  lemma {:induction false} UniqueOfDistinct<T>(xs: seq<T>)
    requires Distinct(xs)
    ensures Unique(xs) == xs
    decreases |xs|
  {
    if xs != [] {
      UniqueOfDistinct(xs[..|xs| - 1]);
      assert xs == xs[..|xs| - 1] + [xs[|xs| - 1]];
    }
  }

  lemma {:induction false} UniqueCommutesWithFilter<T>(xs: seq<T>, keep: T -> bool)
    ensures Unique(Filter(xs, keep)) == Filter(Unique(xs), keep)
    decreases |xs|
  {
    if xs != [] {
      var front, last := xs[..|xs| - 1], xs[|xs| - 1];
      assert xs == front + [last];
      UniqueCommutesWithFilter(front, keep);
      FilterSnoc(front, last, keep);
      FilterKeeps(front, keep);
      FilterSnoc(Unique(front), last, keep);
      var kept := Filter(front, keep);
      if keep(last) {
        assert (kept + [last])[..|kept|] == kept;
        assert Filter(xs, keep) == kept + [last];
      } else {
        assert Filter(xs, keep) == kept;
      }
    }
  }

  /** The country tables are coherent: a canonical label resolves to itself, and a text kept
      because it does not resolve is left as it is the next time. */
  ghost predicate Coherent(env: Env) {
    && (forall x :: env.resolve(x).Resolved? && env.resolve(x).canonical != "" ==> env.resolve(env.resolve(x).canonical) == env.resolve(x))
    && (forall x :: env.resolve(x).Resolved? ==> env.resolve(x).canonical != "")
    && (forall x :: env.resolve(x).Unresolved? && KeptText(env, x) != "" ==>
          env.resolve(KeptText(env, x)).Unresolved? && KeptText(env, KeptText(env, x)) == KeptText(env, x))
  }

  function AsNamed(texts: seq<string>): (rs: seq<Restriction>)
    ensures |rs| == |texts| && forall i :: 0 <= i < |texts| ==> rs[i] == Named(texts[i])
  {
    seq(|texts|, i requires 0 <= i < |texts| => Named(texts[i]))
  }

  /** A label that comes out of normalisation as it went in. */
  predicate IsSettled(env: Env, y: string) {
    y != "" && match env.resolve(y) case Resolved(_, canonical) => canonical == y case Unresolved(_) => KeptText(env, y) == y
  }

  function CodesOf(env: Env, ys: seq<string>): seq<string> {
    if ys == [] then []
    else CodesOf(env, ys[..|ys| - 1]) + CodeOf(env, ys[|ys| - 1])
  }

  function CodeOf(env: Env, y: string): seq<string> {
    match env.resolve(y) case Resolved(alpha2, _) => [alpha2] case Unresolved(_) => []
  }

  predicate IsUnresolved(env: Env, y: string) {
    env.resolve(y).Unresolved?
  }

  /** The labels alone determine codes and unresolved labels. */
  lemma {:induction false} LabelsTellAll(env: Env, texts: seq<string>)
    requires Coherent(env)
    ensures var all := Collected(env, AsNamed(texts));
      && (forall y :: y in all.labels ==> IsSettled(env, y))
      && all.codes == CodesOf(env, all.labels)
      && all.unresolved == Filter(all.labels, (y: string) => IsUnresolved(env, y))
    decreases |texts|
  {
    if texts != [] {
      var front, x := texts[..|texts| - 1], texts[|texts| - 1];
      LabelsTellAll(env, front);
      assert AsNamed(texts)[..|texts| - 1] == AsNamed(front);
      LabelsStepTellAll(env, Collected(env, AsNamed(front)), x);
    }
  }

  lemma LabelsStepTellAll(env: Env, before: Parts, x: string)
    requires Coherent(env)
    requires forall y :: y in before.labels ==> IsSettled(env, y)
    requires before.codes == CodesOf(env, before.labels)
    requires before.unresolved == Filter(before.labels, (y: string) => IsUnresolved(env, y))
    ensures var all := Add(before, FromText(env, x));
      && (forall y :: y in all.labels ==> IsSettled(env, y))
      && all.codes == CodesOf(env, all.labels)
      && all.unresolved == Filter(all.labels, (y: string) => IsUnresolved(env, y))
  {
    var labels, part := before.labels, FromText(env, x);
    TextGivesSettledLabel(env, x);
    if part.labels != [] {
      CodesSnoc(env, labels, part.labels[0]);
      FilterSnoc(labels, part.labels[0], (z: string) => IsUnresolved(env, z));
    } else {
      assert labels + part.labels == labels;
    }
  }

  /** One text gives at most one label, with the code and unresolved label it stands for. */
  lemma TextGivesSettledLabel(env: Env, x: string)
    requires Coherent(env)
    ensures var part := FromText(env, x);
      && (part.labels == [] ==> part.codes == [] && part.unresolved == [])
      && (part.labels != [] ==>
           && part.labels == [part.labels[0]] && IsSettled(env, part.labels[0])
           && part.codes == CodeOf(env, part.labels[0])
           && part.unresolved == if IsUnresolved(env, part.labels[0]) then [part.labels[0]] else [])
  {
  }

  lemma CodesSnoc(env: Env, ys: seq<string>, y: string)
    ensures CodesOf(env, ys + [y]) == CodesOf(env, ys) + CodeOf(env, y)
  {
    assert (ys + [y])[..|ys|] == ys;
  }

  lemma {:induction false} SettledLabelsCollect(env: Env, ys: seq<string>)
    requires forall y :: y in ys ==> IsSettled(env, y)
    ensures var all := Collected(env, AsNamed(ys));
      && all.labels == ys && all.codes == CodesOf(env, ys)
      && all.unresolved == Filter(ys, (y: string) => IsUnresolved(env, y))
    decreases |ys|
  {
    if ys != [] {
      var front, y := ys[..|ys| - 1], ys[|ys| - 1];
      assert ys == front + [y] && y in ys;
      forall z | z in front ensures IsSettled(env, z) { assert z in ys; }
      SettledLabelsCollect(env, front);
      assert AsNamed(ys)[..|ys| - 1] == AsNamed(front);
      SettledTextGives(env, y);
      FilterSnoc(front, y, (z: string) => IsUnresolved(env, z));
    }
  }

  lemma SettledTextGives(env: Env, y: string)
    requires IsSettled(env, y)
    ensures FromText(env, y).labels == [y] && FromText(env, y).codes == CodeOf(env, y)
    ensures FromText(env, y).unresolved == if IsUnresolved(env, y) then [y] else []
  {
  }

  lemma {:induction false} CodesAre(env: Env, ys: seq<string>)
    ensures forall c :: c in CodesOf(env, ys) <==> exists y :: y in ys && env.resolve(y).Resolved? && env.resolve(y).alpha2 == c
    decreases |ys|
  {
    if ys != [] {
      CodesAre(env, ys[..|ys| - 1]);
      assert ys == ys[..|ys| - 1] + [ys[|ys| - 1]];
    }
  }

  lemma SortedUniqueIsOfSet(xs: seq<string>, ys: seq<string>)
    requires forall x :: x in xs <==> x in ys
    ensures SortTexts(Unique(xs)) == SortTexts(Unique(ys))
  {
    UniqueFacts(xs);
    UniqueFacts(ys);
    var less := (a: string, b: string) => TextLess(a, b);
    var s := Elems(Unique(xs));
    assert s == Elems(Unique(ys));
    TextLessIsTotal(s);
    SortIgnoresArrivalOrder(Unique(xs), Unique(ys), less);
  }

  /** Normalising the labels that normalising has produced changes nothing. */
  lemma NormalizingTwiceIsNormalizingOnce(env: Env, texts: seq<string>)
    requires Coherent(env)
    ensures var once := NormalizedLocations(env, AsNamed(texts));
      var twice := NormalizedLocations(env, AsNamed(once.labels));
      && twice.codes == once.codes && twice.labels == once.labels && twice.unresolved == once.unresolved
  {
    var keep := (y: string) => IsUnresolved(env, y);
    var all := Collected(env, AsNamed(texts));
    var ys := Unique(all.labels);
    LabelsTellAll(env, texts);
    UniqueFacts(all.labels);
    SettledLabelsCollect(env, ys);
    UniqueOfDistinct(ys);
    UniqueCommutesWithFilter(all.labels, keep);
    FilterKeepsDistinct(ys, keep);
    UniqueOfDistinct(Filter(ys, keep));
    CodesAre(env, all.labels);
    CodesAre(env, ys);
    SortedUniqueIsOfSet(CodesOf(env, all.labels), CodesOf(env, ys));
  }
}
