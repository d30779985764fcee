/** The dashboards' per-session state: the list of daily entries keyed by
    date, updated in place when a day is saved, and the profile dictionary
    the sidebar overwrites on every run. */
module SessionState {
  import opened Wrappers
  import opened HomeEnergy

  datatype Date = Date(year: int, month: int, day: int)

  /** One saved day, with the fields the save button stores. */
  datatype Entry = Entry(
    date: Date, name: string, city: string, area: string, facility: HomeSize,
    totalEnergy: real, baseEnergy: real, applianceEnergy: real,
    cost: real, carbonFootprint: real,
    acHours: int, fridgeEfficiency: int, wmCycles: int,
    lightsHours: int, fansHours: int, tvHours: int)

  /** `next((i for i, item in enumerate(data) if item['date'] == d), None)`. */
  function FirstIndexWithDate(entries: seq<Entry>, d: Date): (r: Option<nat>)
    ensures r.None? <==> forall k :: 0 <= k < |entries| ==> entries[k].date != d
    ensures r.Some? ==> r.value < |entries| && entries[r.value].date == d
                        && forall k :: 0 <= k < r.value ==> entries[k].date != d
  {
    if |entries| == 0 then None
    else if entries[0].date == d then Some(0)
    else
      match FirstIndexWithDate(entries[1..], d)
      case None => None
      case Some(i) => Some(i + 1)
  }

  /** No two entries share a date. */
  predicate DatesDistinct(entries: seq<Entry>) {
    forall i, j :: 0 <= i < j < |entries| ==> entries[i].date != entries[j].date
  }

  /** The save step on the entry list: overwrite the first entry with the same
      date, or append when there is none. */
  function Upsert(entries: seq<Entry>, e: Entry): (r: seq<Entry>)
    ensures FirstIndexWithDate(entries, e.date).Some? ==>
              var i := FirstIndexWithDate(entries, e.date).value;
              |r| == |entries| && r[i] == e
              && forall k :: 0 <= k < |entries| && k != i ==> r[k] == entries[k]
    ensures FirstIndexWithDate(entries, e.date).None? ==>
              |r| == |entries| + 1 && r[..|entries|] == entries && r[|entries|] == e
    ensures DatesDistinct(entries) ==> DatesDistinct(r)
  {
    match FirstIndexWithDate(entries, e.date)
    case Some(i) => entries[i := e]
    case None => entries + [e]
  }

  /** After saving, the day's first entry is the one just saved. */
  lemma UpsertFindsSaved(entries: seq<Entry>, e: Entry)
    ensures FirstIndexWithDate(Upsert(entries, e), e.date).Some?
    ensures Upsert(entries, e)[FirstIndexWithDate(Upsert(entries, e), e.date).value] == e
  {
    var r := Upsert(entries, e);
    match FirstIndexWithDate(entries, e.date)
    case Some(i) =>
      assert r[i].date == e.date;
      assert forall k :: 0 <= k < i ==> r[k] == entries[k];
      assert FirstIndexWithDate(r, e.date) == Some(i);
    case None =>
      assert r[|entries|].date == e.date;
      assert forall k :: 0 <= k < |entries| ==> r[k] == entries[k];
      assert FirstIndexWithDate(r, e.date) == Some(|entries|);
  }

  /** Saving the same day twice with the same values changes nothing more. */
  lemma UpsertIdempotent(entries: seq<Entry>, e: Entry)
    ensures Upsert(Upsert(entries, e), e) == Upsert(entries, e)
  {
    var r := Upsert(entries, e);
    UpsertFindsSaved(entries, e);
    var j := FirstIndexWithDate(r, e.date).value;
    assert Upsert(r, e) == r[j := e];
  }

  /** Saving a day again replaces what was saved for it before: the last save wins. */
  lemma UpsertLastWins(entries: seq<Entry>, e1: Entry, e2: Entry)
    requires e1.date == e2.date
    ensures Upsert(Upsert(entries, e1), e2) == Upsert(entries, e2)
  {
    var r := Upsert(entries, e1);
    UpsertFindsSaved(entries, e1);
    var j := FirstIndexWithDate(r, e1.date).value;
    match FirstIndexWithDate(entries, e1.date)
    case Some(i) =>
      assert FirstIndexWithDate(r, e1.date) == Some(i);
      assert Upsert(r, e2) == r[i := e2];
      assert Upsert(entries, e2) == entries[i := e2];
    case None =>
      assert FirstIndexWithDate(r, e1.date) == Some(|entries|);
      assert Upsert(r, e2) == r[|entries| := e2];
      assert Upsert(entries, e2) == entries + [e2];
  }

  /** The values the sidebar writes into the profile dictionary. */
  datatype ProfileValue = Text(text: string) | Number(number: int)

  datatype Profile = Profile(name: string, age: int, city: string, area: string,
                             flatTenement: string, facility: HomeSize)

  const ProfileKeys: set<string> := {"name", "age", "city", "area", "flat_tenement", "facility"}

  /** `user_profile.update({...})` with the six sidebar values. */
  function UpdatedProfile(m: map<string, ProfileValue>, p: Profile): (r: map<string, ProfileValue>)
    ensures r.Keys == m.Keys + ProfileKeys
    ensures forall k :: k in m && k !in ProfileKeys ==> r[k] == m[k]
    ensures r["name"] == Text(p.name) && r["age"] == Number(p.age)
    ensures r["city"] == Text(p.city) && r["area"] == Text(p.area)
    ensures r["flat_tenement"] == Text(p.flatTenement)
    ensures r["facility"] == Text(HomeSizeLabel(p.facility))
  {
    m["name" := Text(p.name)]["age" := Number(p.age)]["city" := Text(p.city)]
     ["area" := Text(p.area)]["flat_tenement" := Text(p.flatTenement)]
     ["facility" := Text(HomeSizeLabel(p.facility))]
  }

  /** Re-running the sidebar with the same values leaves the profile as it is. */
  lemma UpdatedProfileIdempotent(m: map<string, ProfileValue>, p: Profile)
    ensures UpdatedProfile(UpdatedProfile(m, p), p) == UpdatedProfile(m, p)
  {
  }

  datatype SaveOutcome = Updated | Saved | MissingName

  /** `st.session_state`: the entry list and the profile dictionary, both
      changed in place. */
  class Session {
    var energyData: seq<Entry>
    var userProfile: map<string, ProfileValue>

    constructor ()
      ensures energyData == [] && userProfile == map[]
    {
      energyData := [];
      userProfile := map[];
    }

    /** The save button. Without a name nothing is stored; otherwise the
        entry replaces the day's first entry or is appended. */
    method SaveDailyConsumption(entry: Entry) returns (outcome: SaveOutcome)
      modifies this
      ensures entry.name == "" ==> outcome == MissingName && energyData == old(energyData)
      ensures entry.name != "" ==> energyData == Upsert(old(energyData), entry)
      ensures outcome == Updated <==>
                entry.name != "" && FirstIndexWithDate(old(energyData), entry.date).Some?
      ensures outcome == Saved <==>
                entry.name != "" && FirstIndexWithDate(old(energyData), entry.date).None?
      ensures userProfile == old(userProfile)
    {
      if entry.name != "" {
        var existingEntry := FirstIndexWithDate(energyData, entry.date);
        if existingEntry.Some? {
          energyData := energyData[existingEntry.value := entry];
          outcome := Updated;
        } else {
          energyData := energyData + [entry];
          outcome := Saved;
        }
      } else {
        outcome := MissingName;
      }
    }

    /** The sidebar's `user_profile.update`. */
    method UpdateProfile(p: Profile)
      modifies this
      ensures userProfile == UpdatedProfile(old(userProfile), p)
      ensures energyData == old(energyData)
    {
      userProfile := userProfile["name" := Text(p.name)]["age" := Number(p.age)]
                     ["city" := Text(p.city)]["area" := Text(p.area)]
                     ["flat_tenement" := Text(p.flatTenement)]
                     ["facility" := Text(HomeSizeLabel(p.facility))];
    }
  }
}
