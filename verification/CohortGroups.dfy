/** Group names as the service accepts and looks them up, against the rules the database
    triggers enforce. */
module CohortGroups {
  import opened Prelude
  import opened TextTools
  import opened Integrity

  datatype Refusal = BadNames | DuplicateNames | NoGroups | NotAGroup

  function Trims(groups: seq<string>): (r: seq<string>)
    ensures |r| == |groups| && forall i :: 0 <= i < |r| ==> r[i] == Trim(groups[i])
  {
    seq(|groups|, i requires 0 <= i < |groups| => Trim(groups[i]))
  }

  predicate DistinctUnder(names: seq<string>, fold: string -> string) {
    forall i, j :: 0 <= i < j < |names| ==> fold(names[i]) != fold(names[j])
  }

  function NormalizeGroups(groups: seq<string>, fold: string -> string): Result<seq<string>, Refusal> {
    if MAX_GROUPS < |groups| || exists i :: 0 <= i < |groups| && (Trim(groups[i]) == "" || MAX_GROUP_LENGTH < |Trim(groups[i])|)
    then Err(BadNames)
    else if !DistinctUnder(Trims(groups), fold) then Err(DuplicateNames)
    else Ok(Trims(groups))
  }

  function Find(groups: seq<string>, wanted: string, fold: string -> string): (r: Option<string>)
    ensures r.Some? ==> r.value in groups && fold(r.value) == wanted
    ensures r.None? ==> forall g :: g in groups ==> fold(g) != wanted
  {
    if groups == [] then None
    else if fold(groups[0]) == wanted then Some(groups[0])
    else Find(groups[1..], wanted, fold)
  }

  function ResolveCohortGroup(groups: seq<string>, group: Option<string>, fold: string -> string): Result<Option<string>, Refusal> {
    if groups == [] then
      if group.Some? && group.value != "" then Err(NoGroups) else Ok(None)
    else if group.None? then Err(NotAGroup)
    else
      var found := Find(groups, fold(Trim(group.value)), fold);
      if found.None? || found.value == "" then Err(NotAGroup) else Ok(found)
  }

  /** Whatever the service normalises, the cohort trigger accepts for a new cohort, and
      normalising again changes nothing. */
  lemma NormalizedNamesAreAccepted(groups: seq<string>, fold: string -> string, db: Db, id: Id, cap: int)
    requires NormalizeGroups(groups, fold).Ok? && KeysHold(db) && id !in db.cohorts
    ensures var names := NormalizeGroups(groups, fold).value;
      && GroupNamesValid(names, fold)
      && Accepted(db, SaveCohort(id, Cohort(names, cap)), fold)
      && NormalizeGroups(names, fold) == Ok(names)
  {
    var names := Trims(groups);
    forall i | 0 <= i < |names| ensures SpaceTrimmed(names[i]) && Trim(names[i]) == names[i] {
      TrimIsTrimmed(groups[i]);
      TrimTrimmed(names[i]);
    }
    assert Trims(names) == names;
  }

  /** The service accepts a list of names exactly when the cohort trigger accepts it trimmed, and then the
      trimmed names are the result: at most 100, none blank or longer than 100 characters, no two alike
      in lower case. */
  lemma NormalizesWhatIsValid(groups: seq<string>, fold: string -> string)
    ensures NormalizeGroups(groups, fold).Ok? <==> GroupNamesValid(Trims(groups), fold)
    ensures NormalizeGroups(groups, fold).Ok? <==>
      && |groups| <= 100
      && (forall i :: 0 <= i < |groups| ==> 1 <= |Trim(groups[i])| <= 100)
      && (forall i, j :: 0 <= i < j < |groups| ==> fold(Trim(groups[i])) != fold(Trim(groups[j])))
    ensures NormalizeGroups(groups, fold).Ok? ==> NormalizeGroups(groups, fold).value == Trims(groups)
  {
    forall i | 0 <= i < |groups| ensures Trims(groups)[i] != "" ==> SpaceTrimmed(Trims(groups)[i]) {
      TrimIsTrimmed(groups[i]);
    }
  }

  /** Two stored names never share a folded spelling, so the lookup returns the one stored
      spelling of what was asked for, and nothing else. */
  lemma ResolvedGroupIsTheStoredSpelling(groups: seq<string>, group: string, fold: string -> string, g: string)
    requires GroupNamesValid(groups, fold) && groups != []
    ensures ResolveCohortGroup(groups, Some(group), fold) == Ok(Some(g)) <==> g in groups && fold(g) == fold(Trim(group))
  {
    if g in groups && fold(g) == fold(Trim(group)) {
      var found := Find(groups, fold(Trim(group)), fold);
      var i :| 0 <= i < |groups| && groups[i] == g;
      var j :| 0 <= j < |groups| && groups[j] == found.value;
      assert i == j;
    }
  }

  /** Every lookup, exactly. A cohort without groups takes nobody who names one; a cohort with groups
      wants the name of one of them. */
  lemma ResolvesExactly(groups: seq<string>, group: Option<string>, fold: string -> string)
    requires GroupNamesValid(groups, fold)
    ensures groups == [] ==>
      ResolveCohortGroup(groups, group, fold) == if group == None || group == Some("") then Ok(None) else Err(NoGroups)
    ensures groups != [] ==>
      && ResolveCohortGroup(groups, group, fold) != Ok(None)
      && (ResolveCohortGroup(groups, group, fold) == Err(NotAGroup) <==>
            forall g <- groups :: group == None || fold(g) != fold(Trim(group.value)))
      && (ResolveCohortGroup(groups, group, fold).Err? ==> ResolveCohortGroup(groups, group, fold) == Err(NotAGroup))
  {
    if groups != [] && group.Some? {
      forall g <- groups ensures ResolveCohortGroup(groups, group, fold) == Ok(Some(g)) <==> fold(g) == fold(Trim(group.value)) {
        ResolvedGroupIsTheStoredSpelling(groups, group.value, fold, g);
      }
    }
  }

  /** A normalised name resolves to itself. */
  lemma StoredNamesResolve(raw: seq<string>, fold: string -> string, g: string)
    requires NormalizeGroups(raw, fold).Ok? && g in NormalizeGroups(raw, fold).value
    ensures ResolveCohortGroup(NormalizeGroups(raw, fold).value, Some(g), fold) == Ok(Some(g))
  {
    var names := Trims(raw);
    forall i | 0 <= i < |names| ensures SpaceTrimmed(names[i]) && Trim(names[i]) == names[i] {
      TrimIsTrimmed(raw[i]);
      TrimTrimmed(names[i]);
    }
    ResolvedGroupIsTheStoredSpelling(names, g, fold, g);
  }

  /** A name the database accepts need not resolve: its trigger strips only spaces, while the
      lookup strips every white space. It resolves to itself exactly when it survives that. */
  lemma StoredNameResolvesIf(groups: seq<string>, fold: string -> string, g: string)
    requires GroupNamesValid(groups, fold) && g in groups
    ensures ResolveCohortGroup(groups, Some(g), fold) == Ok(Some(g)) <==> fold(Trim(g)) == fold(g)
  {
    ResolvedGroupIsTheStoredSpelling(groups, g, fold, g);
  }

  /** A participant imported with a resolved group passes the participant trigger. */
  lemma ResolvedParticipantIsAccepted(db: Db, id: Id, cohort: Id, group: Option<string>, fold: string -> string)
    requires KeysHold(db) && cohort in db.cohorts && id !in db.participants
    requires ResolveCohortGroup(db.cohorts[cohort].groups, group, fold).Ok?
    ensures var g := ResolveCohortGroup(db.cohorts[cohort].groups, group, fold).value;
            Accepted(db, SaveParticipant(id, Participant(cohort, g, false)), fold)
  {
  }
}
