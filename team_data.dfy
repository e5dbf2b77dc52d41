/** The dashboard's team and player tables (script.js) and the rules over them:
    `parseInt` as the add-team form uses it, the form's defaults and checks, the
    sample data, the import merge, the player filter, the team list, the top
    performer and the totals. */
module TeamData {
  import opened Wrappers
  import opened Text
  import opened Seqs

  /** An element of `teamsData`. The map data of the seeded teams (location,
      home ground) is not part of this model. */
  datatype Team = Team(
    name: string, players: int, matches: int, wins: int, losses: int,
    totalRuns: int, totalWickets: int, founded: int, captain: string)

  /** An element of `playersData`; the batting average is not part of this model. */
  datatype Player = Player(name: string, team: string, matches: int, runs: int)

  // ---------------------------------------------------------------------------
  // parseInt

  predicate IsDigit(c: char) {
    '0' <= c <= '9'
  }

  predicate AllDigits(s: string) {
    forall i :: 0 <= i < |s| ==> IsDigit(s[i])
  }

  /** The length of the run of decimal digits `s` starts with. */
  function DigitRun(s: string): (n: nat)
    ensures n <= |s| && AllDigits(s[..n])
    ensures n < |s| ==> !IsDigit(s[n])
    decreases |s|
  {
    if s != [] && IsDigit(s[0]) then
      var n := 1 + DigitRun(s[1..]);
      assert s[..n] == [s[0]] + s[1..][..n - 1];
      n
    else 0
  }

  /** The value of a run of decimal digits. */
  function DigitsValue(s: string): nat
    requires AllDigits(s)
    decreases |s|
  {
    if s == [] then 0
    else DigitsValue(s[..|s| - 1]) * 10 + (s[|s| - 1] as int - '0' as int)
  }

  /** `parseInt(s)` on decimal text: leading white space is skipped, one sign is
      read, then the longest run of digits; `None` is `NaN` (no digits). */
  function ParseInt(s: string): (r: Option<int>)
    ensures r.None? <==> DigitRun(SignedPart(TrimStart(s))) == 0
  {
    var t := TrimStart(s);
    var body := SignedPart(t);
    var n := DigitRun(body);
    if n == 0 then None
    else
      var v: int := DigitsValue(body[..n]);
      Some(if t[0] == '-' then -v else v)
  }

  /** What follows an optional leading sign. */
  function SignedPart(t: string): (r: string)
    ensures t != [] && (t[0] == '-' || t[0] == '+') ==> r == t[1..]
    ensures !(t != [] && (t[0] == '-' || t[0] == '+')) ==> r == t
  {
    if t != [] && (t[0] == '-' || t[0] == '+') then t[1..] else t
  }

  lemma {:induction false} DigitRunOfDigits(d: string, tail: string)
    requires AllDigits(d) && (tail == [] || !IsDigit(tail[0]))
    ensures DigitRun(d + tail) == |d|
    decreases |d|
  {
    if d != [] {
      assert (d + tail)[0] == d[0];
      assert (d + tail)[1..] == d[1..] + tail;
      DigitRunOfDigits(d[1..], tail);
    } else {
      assert d + tail == tail;
    }
  }

  lemma {:induction false} NatToStringValue(n: nat)
    ensures AllDigits(NatToString(n)) && DigitsValue(NatToString(n)) == n
    decreases n
  {
    var s := NatToString(n);
    if n >= 10 {
      NatToStringValue(n / 10);
      assert s[..|s| - 1] == NatToString(n / 10);
    }
  }

  /** Text that starts with a digit or a sign is not trimmed. */
  lemma NoLeadingSpace(s: string)
    requires s != [] && (IsDigit(s[0]) || s[0] == '-')
    ensures TrimStart(s) == s
  {
    assert !IsSpace(s[0]);
  }

  /** Text that starts with a digit reads as its leading run of digits. */
  lemma ParseIntUnsigned(s: string)
    requires s != [] && IsDigit(s[0])
    ensures DigitRun(s) > 0 && ParseInt(s) == Some(DigitsValue(s[..DigitRun(s)]))
  {
    NoLeadingSpace(s);
    assert SignedPart(s) == s;
  }

  /** A minus sign then a digit reads as the negated run of digits. */
  lemma ParseIntNegative(s: string)
    requires |s| >= 2 && s[0] == '-' && IsDigit(s[1])
    ensures DigitRun(s[1..]) > 0 && ParseInt(s).Some?
    ensures ParseInt(s).value == -(DigitsValue(s[1..][..DigitRun(s[1..])]) as int)
  {
    NoLeadingSpace(s);
    assert SignedPart(s) == s[1..];
  }

  /** A run of digits followed by a non-digit reads as its value. */
  lemma ParseIntDigits(d: string, tail: string)
    requires d != [] && AllDigits(d) && (tail == [] || !IsDigit(tail[0]))
    ensures ParseInt(d + tail) == Some(DigitsValue(d))
  {
    var s := d + tail;
    DigitRunOfDigits(d, tail);
    assert s[..|d|] == d;
    assert s[0] == d[0];
    ParseIntUnsigned(s);
  }

  /** After a minus sign, the same run reads as its negation. */
  lemma ParseIntMinusDigits(d: string, tail: string)
    requires d != [] && AllDigits(d) && (tail == [] || !IsDigit(tail[0]))
    ensures ParseInt("-" + d + tail).Some?
    ensures ParseInt("-" + d + tail).value == -(DigitsValue(d) as int)
  {
    var s := d + tail;
    DigitRunOfDigits(d, tail);
    assert s[..|d|] == d;
    var m := "-" + d + tail;
    assert m[1..] == s;
    assert m[0] == '-';
    assert IsDigit(d[0]) && m[1] == d[0];
    ParseIntNegative(m);
    assert DigitRun(m[1..]) == |d|;
    assert m[1..][..|d|] == d;
  }

  /** `parseInt` reads back what a template literal prints, with or without a
      minus sign, and stops at the first character that is not a digit. */
  lemma ParseIntRoundTrip(n: nat, tail: string)
    requires tail == [] || !IsDigit(tail[0])
    ensures ParseInt(NatToString(n) + tail) == Some(n)
    ensures ParseInt("-" + NatToString(n) + tail).Some?
    ensures ParseInt("-" + NatToString(n) + tail).value == -(n as int)
  {
    NatToStringValue(n);
    ParseIntDigits(NatToString(n), tail);
    ParseIntMinusDigits(NatToString(n), tail);
  }

  /** Text without a single digit is `NaN`. */
  lemma ParseIntNoDigits(s: string)
    requires forall i :: 0 <= i < |s| ==> !IsDigit(s[i])
    ensures ParseInt(s) == None
  {
    var t := TrimStart(s);
    var body := SignedPart(t);
    if body != [] {
      assert body[0] in s by {
        assert t == s[|s| - |t|..];
        assert body[0] == s[|s| - |body|];
      }
    }
  }

  /** `parseInt(s) || fallback`: `NaN` and zero both fall back. */
  function ParseIntOr(s: string, fallback: int): (r: int)
    ensures r == fallback || ParseInt(s) == Some(r)
    ensures fallback != 0 ==> r != 0
    ensures ParseInt(s).Some? && ParseInt(s).value != 0 ==> r == ParseInt(s).value
    ensures ParseInt(s).None? || ParseInt(s) == Some(0) ==> r == fallback
  {
    match ParseInt(s)
    case Some(v) => if v == 0 then fallback else v
    case None => fallback
  }

  // ---------------------------------------------------------------------------
  // The add-team form (`saveNewTeam`)

  /** The form's fields as `FormData` hands them over; an empty string stands for
      an empty or missing field. */
  datatype TeamForm = TeamForm(
    teamName: string, players: string, matches: string, wins: string, losses: string,
    totalRuns: string, totalWickets: string, founded: string, captain: string)

  /** The team `saveNewTeam` builds: 11 players, no results and the current
      year when a number is missing, unreadable or zero, and captain TBD. */
  function NewTeam(form: TeamForm, currentYear: int): (t: Team)
    ensures t.name == form.teamName
    ensures t.players != 0 && t.captain != ""
    ensures t.players == 11 || ParseInt(form.players) == Some(t.players)
    ensures t.matches == 0 || ParseInt(form.matches) == Some(t.matches)
    ensures t.founded == currentYear || ParseInt(form.founded) == Some(t.founded)
    ensures form.captain != "" ==> t.captain == form.captain
    ensures form.captain == "" ==> t.captain == "TBD"
    ensures t.players == ParseIntOr(form.players, 11) && t.matches == ParseIntOr(form.matches, 0)
    ensures t.wins == ParseIntOr(form.wins, 0) && t.losses == ParseIntOr(form.losses, 0)
    ensures t.totalRuns == ParseIntOr(form.totalRuns, 0) && t.totalWickets == ParseIntOr(form.totalWickets, 0)
    ensures t.founded == ParseIntOr(form.founded, currentYear)
  {
    Team(form.teamName, ParseIntOr(form.players, 11), ParseIntOr(form.matches, 0),
         ParseIntOr(form.wins, 0), ParseIntOr(form.losses, 0), ParseIntOr(form.totalRuns, 0),
         ParseIntOr(form.totalWickets, 0), ParseIntOr(form.founded, currentYear),
         if form.captain == "" then "TBD" else form.captain)
  }

  /** A player count of 0 is falsy after `parseInt`, so the team gets 11. */
  lemma ZeroPlayersBecomesEleven(form: TeamForm, currentYear: int)
    requires form.players == "0"
    ensures NewTeam(form, currentYear).players == 11
  {
    ParseIntRoundTrip(0, "");
  }

  /** A team already has this name, ignoring case. */
  predicate NameTaken(teams: seq<Team>, name: string) {
    exists i :: 0 <= i < |teams| && ToLower(teams[i].name) == ToLower(name)
  }

  /** No two teams share a name, ignoring case. */
  predicate NamesUnique(teams: seq<Team>) {
    forall i, j :: 0 <= i < j < |teams| ==> ToLower(teams[i].name) != ToLower(teams[j].name)
  }

  /** The outcome of `saveNewTeam`: the team added, or the alert that refused it. */
  datatype SaveResult = Added(team: Team) | NameRequired | NameExists | ResultsExceedMatches

  /** `saveNewTeam`'s checks, in their order: a name is required, the name must
      be new ignoring case, and wins plus losses may not exceed the matches. */
  function CheckNewTeam(teams: seq<Team>, form: TeamForm, currentYear: int): (r: SaveResult)
    ensures r == NameRequired <==> form.teamName == ""
    ensures r == NameExists <==> form.teamName != "" && NameTaken(teams, form.teamName)
    ensures r.Added? <==>
              form.teamName != "" && !NameTaken(teams, form.teamName)
              && NewTeam(form, currentYear).wins + NewTeam(form, currentYear).losses
                 <= NewTeam(form, currentYear).matches
    ensures r.Added? ==> r.team == NewTeam(form, currentYear)
  {
    var t := NewTeam(form, currentYear);
    if t.name == "" then NameRequired
    else if NameTaken(teams, t.name) then NameExists
    else if t.wins + t.losses > t.matches then ResultsExceedMatches
    else Added(t)
  }

  /** Adding through the form keeps the names unique ignoring case. */
  lemma SaveKeepsNamesUnique(teams: seq<Team>, form: TeamForm, currentYear: int)
    requires NamesUnique(teams)
    requires CheckNewTeam(teams, form, currentYear).Added?
    ensures NamesUnique(teams + [CheckNewTeam(teams, form, currentYear).team])
  {
    var t := CheckNewTeam(teams, form, currentYear).team;
    var after := teams + [t];
    forall i, j | 0 <= i < j < |after|
      ensures ToLower(after[i].name) != ToLower(after[j].name)
    {
      if j == |teams| {
        assert after[i] == teams[i];
        assert !(ToLower(teams[i].name) == ToLower(form.teamName));
      }
    }
  }

  // ---------------------------------------------------------------------------
  // The sample data (`addSampleData`)

  const Eagles := Team("Eagles", 11, 10, 7, 3, 850, 65, 2022, "Sample Captain")
  const SampleTeams := [Eagles]

  /** A team has exactly this name (the sample check compares case-sensitively). */
  predicate HasName(teams: seq<Team>, name: string) {
    exists i :: 0 <= i < |teams| && teams[i].name == name
  }

  function AddIfMissing(teams: seq<Team>, t: Team): seq<Team> {
    if HasName(teams, t.name) then teams else teams + [t]
  }

  /** The samples, in order, each appended unless its exact name is present. */
  function AddMissing(teams: seq<Team>, samples: seq<Team>): (r: seq<Team>)
    ensures |teams| <= |r| && r[..|teams|] == teams
    ensures |r| <= |teams| + |samples|
    decreases |samples|
  {
    if samples == [] then teams
    else AddIfMissing(AddMissing(teams, samples[..|samples| - 1]), samples[|samples| - 1])
  }

  lemma HasNameGrows(teams: seq<Team>, more: seq<Team>, name: string)
    requires HasName(teams, name)
    ensures HasName(teams + more, name)
  {
    var i :| 0 <= i < |teams| && teams[i].name == name;
    assert (teams + more)[i] == teams[i];
  }

  /** Afterwards every sample's name is present. */
  lemma {:induction false} AddMissingCovers(teams: seq<Team>, samples: seq<Team>)
    ensures forall i :: 0 <= i < |samples| ==> HasName(AddMissing(teams, samples), samples[i].name)
    decreases |samples|
  {
    if samples != [] {
      var init, last := samples[..|samples| - 1], samples[|samples| - 1];
      var before := AddMissing(teams, init);
      AddMissingCovers(teams, init);
      forall i | 0 <= i < |samples|
        ensures HasName(AddMissing(teams, samples), samples[i].name)
      {
        if i < |samples| - 1 {
          assert samples[i] == init[i];
          if !HasName(before, last.name) {
            HasNameGrows(before, [last], samples[i].name);
          }
        } else if !HasName(before, last.name) {
          assert (before + [last])[|before|] == last;
        }
      }
    }
  }

  /** Samples whose names are all present add nothing. */
  lemma {:induction false} AddMissingNothingNew(teams: seq<Team>, samples: seq<Team>)
    requires forall i :: 0 <= i < |samples| ==> HasName(teams, samples[i].name)
    ensures AddMissing(teams, samples) == teams
    decreases |samples|
  {
    if samples != [] {
      AddMissingNothingNew(teams, samples[..|samples| - 1]);
    }
  }

  /** `addSampleData` is idempotent: a second call adds nothing. */
  lemma AddMissingIdempotent(teams: seq<Team>, samples: seq<Team>)
    ensures AddMissing(AddMissing(teams, samples), samples) == AddMissing(teams, samples)
  {
    AddMissingCovers(teams, samples);
    AddMissingNothingNew(AddMissing(teams, samples), samples);
  }

  /** The sample check is case-sensitive: with a team "eagles" present, the
      sample "Eagles" is still appended and the names stop being unique
      ignoring case. */
  lemma SampleIgnoresLowerCaseTwin(other: Team)
    requires other.name == "eagles"
    ensures AddMissing([other], SampleTeams) == [other, Eagles]
    ensures !NamesUnique(AddMissing([other], SampleTeams))
  {
    assert SampleTeams[..0] == [];
    assert !HasName([other], "Eagles") by {
      assert [other][0].name != "Eagles";
    }
    var after := [other, Eagles];
    assert ToLower(after[0].name) == ToLower(after[1].name);
  }

  // ---------------------------------------------------------------------------
  // The import merge (`handleFileImport`)

  /** A top-level field of the imported JSON: absent or falsy, an array, or a
      truthy value the spread operator cannot iterate. */
  datatype Field<T> = Missing | Items(items: seq<T>) | NotIterable

  /** The imported file: text `JSON.parse` rejects, or the two fields. */
  datatype ImportFile = Unparsable | Parsed(teams: Field<Team>, players: Field<Player>)

  /** The tables after the import: imported teams, then imported players, are
      appended after the existing ones; anything that throws stops the merge
      where it is. */
  function MergeImport(teams: seq<Team>, players: seq<Player>, file: ImportFile)
    : (r: (seq<Team>, seq<Player>))
    ensures |teams| <= |r.0| && r.0[..|teams|] == teams
    ensures |players| <= |r.1| && r.1[..|players|] == players
    ensures file.Unparsable? ==> r == (teams, players)
    ensures file.Parsed? && file.teams.NotIterable? ==> r == (teams, players)
    ensures file.Parsed? && file.teams.Items? ==> r.0 == teams + file.teams.items
    ensures file.Parsed? && !file.teams.Items? ==> r.0 == teams
    ensures file.Parsed? && !file.teams.NotIterable? && file.players.Items? ==>
              r.1 == players + file.players.items
    ensures file.Parsed? && !(file.players.Items? && !file.teams.NotIterable?) ==> r.1 == players
  {
    match file
    case Unparsable => (teams, players)
    case Parsed(ts, ps) =>
      var players' := if ps.Items? then players + ps.items else players;
      assert players'[..|players|] == players;
      match ts
      case NotIterable => (teams, players)
      case Missing => (teams, players')
      case Items(xs) =>
        assert (teams + xs)[..|teams|] == teams;
        (teams + xs, players')
  }

  // ---------------------------------------------------------------------------
  // Filter, team list, top performer, totals

  function TeamOf(p: Player): string {
    p.team
  }

  predicate OnTeam(selected: string, p: Player) {
    p.team == selected
  }

  /** `filterByTeam`: everyone for "all", otherwise the players of the selected
      team, in table order. */
  function FilterByTeam(players: seq<Player>, selected: string): (r: seq<Player>)
    ensures selected == "all" ==> r == players
    ensures selected != "all" ==> forall p :: p in r <==> p in players && p.team == selected
    ensures |r| <= |players|
  {
    if selected == "all" then players else Filter(players, p => OnTeam(selected, p))
  }

  /** Filtering the filtered table by the same selection changes nothing. */
  lemma FilterByTeamIdempotent(players: seq<Player>, selected: string)
    ensures FilterByTeam(FilterByTeam(players, selected), selected) == FilterByTeam(players, selected)
  {
    if selected != "all" {
      FilterIdempotent(players, p => OnTeam(selected, p));
    }
  }

  /** Filtering a table split in two filters each part: the selection keeps the
      players' order across the split. */
  lemma FilterByTeamAppend(a: seq<Player>, b: seq<Player>, selected: string)
    ensures FilterByTeam(a + b, selected) == FilterByTeam(a, selected) + FilterByTeam(b, selected)
  {
    if selected != "all" {
      FilterAppend(a, b, p => OnTeam(selected, p));
    }
  }

  /** The "all" option shadows a team called "all": choosing it shows every
      player, not that team's. */
  lemma AllShadowsTeamNamedAll(mine: Player, other: Player)
    requires mine.team == "all" && other.team != "all"
    ensures other in FilterByTeam([mine, other], "all")
  {
  }

  /** `[...new Set(names)]`: each name once, in order of first occurrence. */
  function Distinct(names: seq<string>): (r: seq<string>)
    ensures forall x :: x in r <==> x in names
    ensures forall i, j :: 0 <= i < j < |r| ==> r[i] != r[j]
    decreases |names|
  {
    if names == [] then []
    else
      var d := Distinct(names[..|names| - 1]);
      var x := names[|names| - 1];
      assert forall y :: y in names <==> y in names[..|names| - 1] || y == x by {
        assert names == names[..|names| - 1] + [x];
      }
      if x in d then d else d + [x]
  }

  /** The order is that of first occurrence: wherever a later name of the list
      occurs, an earlier name of the list has already occurred. */
  lemma {:induction false} DistinctFirstOccurrence(names: seq<string>)
    ensures forall i, j, k ::
              (0 <= i < j < |Distinct(names)| && 0 <= k < |names| && names[k] == Distinct(names)[j]) ==>
              exists m :: 0 <= m < k && names[m] == Distinct(names)[i]
    decreases |names|
  {
    if names != [] {
      var n := |names| - 1;
      var init, x := names[..n], names[n];
      var d := Distinct(init);
      var r := Distinct(names);
      assert r == (if x in d then d else d + [x]);
      DistinctFirstOccurrence(init);
      forall i, j, k | 0 <= i < j < |r| && 0 <= k < |names| && names[k] == r[j]
        ensures exists m :: 0 <= m < k && names[m] == r[i]
      {
        assert i < |d| && r[i] == d[i];
        var m: nat;
        if k < n {
          assert names[k] == init[k];
          assert r[j] in d;
          assert j < |d| && r[j] == d[j];
          assert init[k] == d[j];
          m :| 0 <= m < k && init[m] == d[i];
        } else {
          assert d[i] in d;
          assert d[i] in init;
          m :| 0 <= m < |init| && init[m] == d[i];
        }
        assert m < k && names[m] == init[m];
      }
    }
  }

  /** The distinct team names of the player table, as `updateTeamSelect` lists them. */
  function DistinctTeams(players: seq<Player>): (r: seq<string>)
    ensures forall t :: t in r <==> exists p :: p in players && p.team == t
  {
    var names := Map(players, TeamOf);
    assert forall t :: t in names <==> exists p :: p in players && p.team == t by {
      forall t ensures t in names <==> exists p :: p in players && p.team == t {
        if t in names {
          var i :| 0 <= i < |names| && names[i] == t;
          assert players[i] in players;
        }
        if exists p :: p in players && p.team == t {
          var p :| p in players && p.team == t;
          var i :| 0 <= i < |players| && players[i] == p;
          assert names[i] == t;
        }
      }
    }
    Distinct(names)
  }

  /** `teamSelect.value = currentValue || 'all'` after the options are rebuilt:
      the previous choice if it is still an option, "all" if there was none,
      and no selection ("") otherwise. */
  function SelectedTeam(current: string, teams: seq<string>): (r: string)
    ensures r == "" || r == "all" || r in teams
    ensures current == "" ==> r == "all"
    ensures current != "" && (current == "all" || current in teams) ==> r == current
    ensures current != "" && current != "all" && current !in teams ==> r == ""
  {
    var wanted := if current == "" then "all" else current;
    if wanted == "all" || wanted in teams then wanted else ""
  }

  /** A selected team stays selected when more players arrive. */
  lemma SelectionSurvivesImport(current: string, players: seq<Player>, more: seq<Player>)
    requires current != "" && current in DistinctTeams(players)
    ensures SelectedTeam(current, DistinctTeams(players + more)) == current
  {
    var p :| p in players && p.team == current;
    assert p in players + more;
  }

  /** The index the `reduce` over the first `n` players ends on: the incumbent is
      kept only when its runs are strictly greater. */
  function TopIndex(players: seq<Player>, n: nat): (k: nat)
    requires 1 <= n <= |players|
    ensures k < n
    ensures forall j :: 0 <= j < n ==> players[j].runs <= players[k].runs
    ensures forall j :: k < j < n ==> players[j].runs < players[k].runs
  {
    if n == 1 then 0
    else
      var acc := TopIndex(players, n - 1);
      if players[acc].runs > players[n - 1].runs then acc else n - 1
  }

  /** `loadTopPlayer`: a player with the most runs, the last one on a tie, or
      none for an empty table. */
  function TopPlayer(players: seq<Player>): (r: Option<Player>)
    ensures r.None? <==> players == []
    ensures r.Some? ==>
              exists k :: 0 <= k < |players| && players[k] == r.value
                && (forall j :: 0 <= j < |players| ==> players[j].runs <= r.value.runs)
                && (forall j :: k < j < |players| ==> players[j].runs < r.value.runs)
  {
    if players == [] then None else Some(players[TopIndex(players, |players|)])
  }

  /** A newcomer with at least as many runs as the top performer takes over. */
  lemma TopPlayerNewcomer(players: seq<Player>, p: Player)
    requires players != [] && p.runs >= TopPlayer(players).value.runs
    ensures TopPlayer(players + [p]) == Some(p)
  {
    var all := players + [p];
    var k := TopIndex(players, |players|);
    assert all[k] == players[k];
    assert forall j :: 0 <= j < |players| ==> all[j] == players[j];
    assert TopIndex(all, |players|) == TopIndex(players, |players|) by {
      TopIndexPrefix(all, players, |players|);
    }
  }

  lemma {:induction false} TopIndexPrefix(a: seq<Player>, b: seq<Player>, n: nat)
    requires 1 <= n <= |a| && n <= |b| && a[..n] == b[..n]
    ensures TopIndex(a, n) == TopIndex(b, n)
  {
    assert forall j :: 0 <= j < n ==> a[j] == a[..n][j] == b[..n][j] == b[j];
    if n > 1 {
      assert a[..n - 1] == a[..n][..n - 1];
      assert b[..n - 1] == b[..n][..n - 1];
      TopIndexPrefix(a, b, n - 1);
    }
  }

  function MatchesOf(t: Team): int {
    t.matches
  }

  function RunsOf(t: Team): int {
    t.totalRuns
  }

  /** `loadTeamStats`' total matches. */
  function TotalMatches(teams: seq<Team>): int {
    Sum(teams, MatchesOf)
  }

  /** `loadTeamStats`' total runs. */
  function TotalRuns(teams: seq<Team>): int {
    Sum(teams, RunsOf)
  }

  /** Appending teams (by the form, the sample data or an import) adds their
      matches and runs to the totals. */
  lemma TotalsAfterAppend(teams: seq<Team>, more: seq<Team>)
    ensures TotalMatches(teams + more) == TotalMatches(teams) + TotalMatches(more)
    ensures TotalRuns(teams + more) == TotalRuns(teams) + TotalRuns(more)
  {
    SumAppend(teams, more, MatchesOf);
    SumAppend(teams, more, RunsOf);
  }

  /** Teams with no negative numbers give totals that are not negative. */
  lemma TotalsNonNegative(teams: seq<Team>)
    requires forall t :: t in teams ==> t.matches >= 0 && t.totalRuns >= 0
    ensures TotalMatches(teams) >= 0 && TotalRuns(teams) >= 0
  {
    SumNonNegative(teams, MatchesOf);
    SumNonNegative(teams, RunsOf);
  }
}
