/** The dashboard's mutable state (script.js `teamsData`, `playersData`,
    `currentLocation`) and the handlers that update it in place. */
module SportsDashboard {
  import opened Wrappers
  import opened Text
  import opened TeamData
  import opened Location

  /** The three teams the page starts with. */
  const SeedTeams := [
    Team("Titans", 11, 15, 10, 5, 1250, 95, 2020, "John Smith"),
    Team("Warriors", 11, 12, 8, 4, 980, 78, 2019, "Mike Johnson"),
    Team("Falcons", 11, 18, 12, 6, 1450, 112, 2021, "David Brown")]

  /** The six players the page starts with. */
  const SeedPlayers := [
    Player("John Smith", "Titans", 15, 450),
    Player("Mike Johnson", "Warriors", 12, 380),
    Player("David Brown", "Falcons", 18, 520),
    Player("Alex Wilson", "Titans", 14, 410),
    Player("Chris Davis", "Warriors", 16, 480),
    Player("Tom Miller", "Falcons", 13, 390)]

  /** The seeded team names differ even ignoring case. */
  lemma SeedNamesUnique()
    ensures NamesUnique(SeedTeams)
  {
    forall i, j | 0 <= i < j < |SeedTeams|
      ensures ToLower(SeedTeams[i].name) != ToLower(SeedTeams[j].name)
    {
      assert |SeedTeams[0].name| == 6 && |SeedTeams[1].name| == 8 && |SeedTeams[2].name| == 7;
      assert |ToLower(SeedTeams[i].name)| != |ToLower(SeedTeams[j].name)|;
    }
  }

  class Dashboard {
    var teams: seq<Team>
    var players: seq<Player>
    var location: Place

    /** The current location carries coordinates (the map and the weather
        request read them). */
    predicate Located()
      reads this
    {
      location.coords.Some?
    }

    constructor ()
      ensures teams == SeedTeams && players == SeedPlayers && location == NewYork
      ensures Located()
    {
      teams := SeedTeams;
      players := SeedPlayers;
      location := NewYork;
    }

    /** `saveNewTeam`: the team is pushed only when every check passes;
        nothing else changes. */
    method SaveNewTeam(form: TeamForm, currentYear: int) returns (result: SaveResult)
      modifies this
      ensures result == CheckNewTeam(old(teams), form, currentYear)
      ensures result.Added? ==> teams == old(teams) + [result.team]
      ensures !result.Added? ==> teams == old(teams)
      ensures players == old(players) && location == old(location)
      ensures old(NamesUnique(teams)) ==> NamesUnique(teams)
    {
      var t := NewTeam(form, currentYear);
      if t.name == "" {
        return NameRequired;
      }
      if NameTaken(teams, t.name) {
        return NameExists;
      }
      if t.wins + t.losses > t.matches {
        return ResultsExceedMatches;
      }
      result := Added(t);
      if NamesUnique(teams) {
        SaveKeepsNamesUnique(teams, form, currentYear);
      }
      teams := teams + [t];
    }

    /** `addSampleData`: each sample is pushed unless a team has exactly its
        name; afterwards every sample name is present. */
    method AddSampleData()
      modifies this
      ensures teams == AddMissing(old(teams), SampleTeams)
      ensures forall i :: 0 <= i < |SampleTeams| ==> HasName(teams, SampleTeams[i].name)
      ensures players == old(players) && location == old(location)
    {
      var i := 0;
      while i < |SampleTeams|
        invariant 0 <= i <= |SampleTeams|
        invariant teams == AddMissing(old(teams), SampleTeams[..i])
        invariant players == old(players) && location == old(location)
      {
        var sample := SampleTeams[i];
        assert SampleTeams[..i + 1][..i] == SampleTeams[..i];
        if !HasName(teams, sample.name) {
          teams := teams + [sample];
        }
        i := i + 1;
      }
      assert SampleTeams[..i] == SampleTeams;
      AddMissingCovers(old(teams), SampleTeams);
    }

    /** `handleFileImport`'s `onload`: the tables become the merge of the old
        ones with the file. */
    method ImportData(file: ImportFile)
      modifies this
      ensures (teams, players) == MergeImport(old(teams), old(players), file)
      ensures location == old(location)
    {
      if file.Unparsable? {
        return;
      }
      if file.teams.NotIterable? {
        return;
      }
      if file.teams.Items? {
        teams := teams + file.teams.items;
      }
      if file.players.Items? {
        players := players + file.players.items;
      }
    }

    /** `searchLocation`, with the corrected lookup: a known city replaces the
        location, anything else leaves it as it was, and the location keeps its
        coordinates. */
    method SearchLocation(query: string)
      modifies this
      ensures SearchCity(query).Some? ==> location == SearchCity(query).value
      ensures SearchCity(query).None? ==> location == old(location)
      ensures old(Located()) ==> Located()
      ensures teams == old(teams) && players == old(players)
    {
      var found := SearchCity(query);
      if found.Some? {
        location := found.value;
      }
    }
  }

  /** Loading the sample data twice leaves the same teams as loading it once. */
  method SampleDataTwice(d: Dashboard)
    modifies d
    ensures d.teams == AddMissing(old(d.teams), SampleTeams)
  {
    d.AddSampleData();
    d.AddSampleData();
    AddMissingIdempotent(old(d.teams), SampleTeams);
  }
}
