/** The integrity triggers over cohorts, participants, teams, memberships, briefs, mentors and
    claims: each table is a map, each trigger the guard of a step that writes one row.
    `fold` is the lower-casing that the database and the service share. */
module Integrity {
  import opened Prelude

  type Id = string

  datatype Cohort = Cohort(groups: seq<string>, teamSizeMax: int)

  datatype Participant = Participant(cohort: Id, group: Option<string>, deleted: bool)

  datatype Team = Team(cohort: Id, group: Option<string>, brief: Option<Id>, disqualified: bool, deleted: bool)

  datatype Member = Member(participant: Id, team: Id, confirmed: bool, deleted: bool)

  datatype Brief = Brief(cohort: Id, maxTeams: int, approved: bool)

  datatype Mentor = Mentor(cohort: Id, maxClaims: int, active: bool)

  datatype Claim = Claim(mentor: Id, team: Id, active: bool, deleted: bool)

  datatype Db = Db(
    cohorts: map<Id, Cohort>,
    participants: map<Id, Participant>,
    teams: map<Id, Team>,
    members: map<Id, Member>,
    briefs: map<Id, Brief>,
    mentors: map<Id, Mentor>,
    claims: map<Id, Claim>)

  /** One row written. A team update names the columns it sets, because two team triggers
      watch only some columns; a column it does not name keeps its value. */
  datatype Step =
    | SaveCohort(id: Id, cohort: Cohort)
    | SaveParticipant(id: Id, participant: Participant)
    | SaveTeam(id: Id, team: Team, namesGroup: bool, namesBrief: bool)
    | SaveMember(id: Id, member: Member)
    | SaveBrief(id: Id, brief: Brief)
    | SaveMentor(id: Id, mentor: Mentor)
    | SaveClaim(id: Id, claim: Claim)
    | RemoveMember(id: Id)
    | RemoveClaim(id: Id)

  const MAX_GROUPS := 100
  const MAX_GROUP_LENGTH := 100

  // ---------------------------------------------------------------- the trigger functions

  /** `btrim` with its default argument: spaces only. */
  predicate SpaceTrimmed(name: string) {
    name != "" && name[0] != ' ' && name[|name| - 1] != ' '
  }

  predicate GroupNamesValid(groups: seq<string>, fold: string -> string) {
    && |groups| <= MAX_GROUPS
    && (forall i :: 0 <= i < |groups| ==> SpaceTrimmed(groups[i]) && |groups[i]| <= MAX_GROUP_LENGTH)
    && (forall i, j :: 0 <= i < j < |groups| ==> fold(groups[i]) != fold(groups[j]))
  }

  predicate Listed(group: Option<string>, groups: seq<string>) {
    group.None? || group.value in groups
  }

  /** acmp_validate_cohort_groups */
  predicate CohortAccepted(db: Db, id: Id, c: Cohort, fold: string -> string) {
    && GroupNamesValid(c.groups, fold)
    && (forall p :: p in db.participants && db.participants[p].cohort == id && !db.participants[p].deleted ==>
          Listed(db.participants[p].group, c.groups))
    && (forall t :: t in db.teams && db.teams[t].cohort == id && !db.teams[t].deleted ==>
          Listed(db.teams[t].group, c.groups))
  }

  /** No live membership of the participant joins a live team of another group or cohort. */
  predicate TeamsAgreeWith(db: Db, id: Id, p: Participant) {
    forall m :: m in db.members && db.members[m].participant == id && !db.members[m].deleted
                && db.members[m].team in db.teams && !db.teams[db.members[m].team].deleted ==>
      db.teams[db.members[m].team].group == p.group && db.teams[db.members[m].team].cohort == p.cohort
  }

  /** acmp_validate_participant_group */
  predicate ParticipantAccepted(db: Db, id: Id, p: Participant) {
    p.deleted ||
    (&& p.cohort in db.cohorts
     && Listed(p.group, db.cohorts[p.cohort].groups)
     && (0 < |db.cohorts[p.cohort].groups| && p.group.None? ==>
           id in db.participants && !db.participants[id].deleted && db.participants[id].cohort == p.cohort)
     && (id in db.participants && (db.participants[id].group != p.group || db.participants[id].cohort != p.cohort) ==>
           TeamsAgreeWith(db, id, p)))
  }

  predicate MembersAgreeWith(db: Db, id: Id, t: Team) {
    forall m :: m in db.members && db.members[m].team == id && !db.members[m].deleted
                && db.members[m].participant in db.participants && !db.participants[db.members[m].participant].deleted ==>
      db.participants[db.members[m].participant].group == t.group
      && db.participants[db.members[m].participant].cohort == t.cohort
  }

  /** acmp_validate_team_group, for an update that names group or cohort */
  predicate TeamGroupAccepted(db: Db, id: Id, t: Team) {
    t.deleted ||
    (&& t.cohort in db.cohorts
     && Listed(t.group, db.cohorts[t.cohort].groups)
     && (id !in db.teams && 0 < |db.cohorts[t.cohort].groups| ==> t.group.Some?)
     && (id in db.teams ==> MembersAgreeWith(db, id, t)))
  }

  function AssignedTo(teams: map<Id, Team>, brief: Id): set<Id> {
    set t | t in teams && teams[t].brief == Some(brief) && !teams[t].disqualified && !teams[t].deleted
  }

  /** acmp_check_brief_assignment */
  predicate BriefAccepts(db: Db, id: Id, t: Team) {
    t.brief.None? || t.deleted || t.disqualified ||
    (&& t.brief.value in db.briefs
     && db.briefs[t.brief.value].cohort == t.cohort && db.briefs[t.brief.value].approved
     && |AssignedTo(db.teams, t.brief.value) - {id}| < db.briefs[t.brief.value].maxTeams)
  }

  function ConfirmedIn(members: map<Id, Member>, team: Id): set<Id> {
    set m | m in members && members[m].team == team && members[m].confirmed && !members[m].deleted
  }

  /** acmp_check_team_member */
  predicate TeamHasRoom(db: Db, id: Id, m: Member) {
    && m.participant in db.participants && m.team in db.teams && db.teams[m.team].cohort in db.cohorts
    && db.participants[m.participant].cohort == db.teams[m.team].cohort
    && (m.confirmed && !m.deleted ==>
          |ConfirmedIn(db.members, m.team) - {id}| < db.cohorts[db.teams[m.team].cohort].teamSizeMax)
  }

  /** acmp_validate_group_membership */
  predicate GroupsMatch(db: Db, m: Member) {
    m.deleted ||
    (&& m.participant in db.participants && m.team in db.teams && db.teams[m.team].cohort in db.cohorts
     && db.participants[m.participant].group == db.teams[m.team].group
     && (0 < |db.cohorts[db.teams[m.team].cohort].groups| ==> db.teams[m.team].group.Some?))
  }

  /** The partial unique index on confirmed, live memberships. */
  predicate NoOtherTeam(db: Db, id: Id, m: Member) {
    m.confirmed && !m.deleted ==>
      forall other :: other in db.members && other != id && db.members[other].confirmed && !db.members[other].deleted ==>
        db.members[other].participant != m.participant
  }

  function ActiveOf(claims: map<Id, Claim>, mentor: Id): set<Id> {
    set c | c in claims && claims[c].mentor == mentor && claims[c].active && !claims[c].deleted
  }

  /** acmp_check_mentor_claim */
  predicate MentorAccepts(db: Db, id: Id, c: Claim) {
    !c.active || c.deleted ||
    (&& c.mentor in db.mentors && c.team in db.teams
     && db.teams[c.team].cohort == db.mentors[c.mentor].cohort && db.mentors[c.mentor].active
     && |ActiveOf(db.claims, c.mentor) - {id}| < db.mentors[c.mentor].maxClaims)
  }

  /** The partial unique index on active, live claims. */
  predicate NoOtherClaim(db: Db, id: Id, c: Claim) {
    c.active && !c.deleted ==>
      forall other :: other in db.claims && other != id && db.claims[other].active && !db.claims[other].deleted ==>
        db.claims[other].team != c.team
  }

  // ---------------------------------------------------------------- steps

  /** A team update that does not name a column leaves it alone. */
  predicate NamesItsChanges(db: Db, s: Step) {
    s.SaveTeam? && s.id in db.teams ==>
      && (!s.namesGroup ==> s.team.group == db.teams[s.id].group && s.team.cohort == db.teams[s.id].cohort)
      && (!s.namesBrief ==> s.team.brief == db.teams[s.id].brief && s.team.disqualified == db.teams[s.id].disqualified
                            && s.team.deleted == db.teams[s.id].deleted)
  }

  /** Foreign keys, triggers and unique indexes all accept the row. */
  predicate Accepted(db: Db, s: Step, fold: string -> string) {
    NamesItsChanges(db, s) &&
    match s
    case SaveCohort(id, c) => (id in db.cohorts && db.cohorts[id].groups == c.groups) || CohortAccepted(db, id, c, fold)
    case SaveParticipant(id, p) => p.cohort in db.cohorts && ParticipantAccepted(db, id, p)
    case SaveTeam(id, t, namesGroup, namesBrief) =>
      && t.cohort in db.cohorts && (t.brief.Some? ==> t.brief.value in db.briefs)
      && (id !in db.teams || namesBrief ==> BriefAccepts(db, id, t))
      && (id !in db.teams || namesGroup ==> TeamGroupAccepted(db, id, t))
    case SaveMember(id, m) =>
      m.participant in db.participants && m.team in db.teams && GroupsMatch(db, m) && TeamHasRoom(db, id, m) && NoOtherTeam(db, id, m)
    case SaveBrief(_, b) => b.cohort in db.cohorts
    case SaveMentor(_, m) => m.cohort in db.cohorts
    case SaveClaim(id, c) => c.mentor in db.mentors && c.team in db.teams && MentorAccepts(db, id, c) && NoOtherClaim(db, id, c)
    case RemoveMember(_) => true
    case RemoveClaim(_) => true
  }

  function Written(db: Db, s: Step): Db {
    match s
    case SaveCohort(id, c) => db.(cohorts := db.cohorts[id := c])
    case SaveParticipant(id, p) => db.(participants := db.participants[id := p])
    case SaveTeam(id, t, _, _) => db.(teams := db.teams[id := t])
    case SaveMember(id, m) => db.(members := db.members[id := m])
    case SaveBrief(id, b) => db.(briefs := db.briefs[id := b])
    case SaveMentor(id, m) => db.(mentors := db.mentors[id := m])
    case SaveClaim(id, c) => db.(claims := db.claims[id := c])
    case RemoveMember(id) => db.(members := db.members - {id})
    case RemoveClaim(id) => db.(claims := db.claims - {id})
  }

  function Next(db: Db, s: Step, fold: string -> string): Db {
    if Accepted(db, s, fold) then Written(db, s) else db
  }

  /** The step brings a soft-deleted team or participant back. */
  predicate Restores(db: Db, s: Step) {
    || (s.SaveTeam? && s.id in db.teams && db.teams[s.id].deleted && !s.team.deleted)
    || (s.SaveParticipant? && s.id in db.participants && db.participants[s.id].deleted && !s.participant.deleted)
  }

  // ---------------------------------------------------------------- groups

  ghost predicate KeysHold(db: Db) {
    && (forall p :: p in db.participants ==> db.participants[p].cohort in db.cohorts)
    && (forall t :: t in db.teams ==> db.teams[t].cohort in db.cohorts)
    && (forall m :: m in db.members ==> db.members[m].participant in db.participants && db.members[m].team in db.teams)
    && (forall c :: c in db.claims ==> db.claims[c].mentor in db.mentors && db.claims[c].team in db.teams)
    && (forall t :: t in db.teams && db.teams[t].brief.Some? ==> db.teams[t].brief.value in db.briefs)
  }

  /** A live membership joins a live participant and a live team of one cohort and one group. */
  ghost predicate MembershipAgrees(db: Db, m: Member)
    requires m.participant in db.participants && m.team in db.teams
  {
    var p, t := db.participants[m.participant], db.teams[m.team];
    !m.deleted && !p.deleted && !t.deleted ==> p.cohort == t.cohort && p.group == t.group
  }

  ghost predicate MembershipsAgree(db: Db)
    requires KeysHold(db)
  {
    forall m :: m in db.members ==> MembershipAgrees(db, db.members[m])
  }

  /** Every live group is one of its cohort's. */
  ghost predicate GroupsListed(db: Db)
    requires KeysHold(db)
  {
    && (forall p :: p in db.participants && !db.participants[p].deleted ==>
          Listed(db.participants[p].group, db.cohorts[db.participants[p].cohort].groups))
    && (forall t :: t in db.teams && !db.teams[t].deleted ==>
          Listed(db.teams[t].group, db.cohorts[db.teams[t].cohort].groups))
  }

  ghost predicate GroupsHold(db: Db) {
    KeysHold(db) && MembershipsAgree(db) && GroupsListed(db)
  }

  /** The rows that the written row refers to exist. */
  ghost predicate RefersToRows(db: Db, s: Step) {
    match s
    case SaveParticipant(_, p) => p.cohort in db.cohorts
    case SaveTeam(_, t, _, _) => t.cohort in db.cohorts && (t.brief.Some? ==> t.brief.value in db.briefs)
    case SaveMember(_, m) => m.participant in db.participants && m.team in db.teams
    case SaveClaim(_, c) => c.mentor in db.mentors && c.team in db.teams
    case _ => true
  }

  lemma AcceptedRefers(db: Db, s: Step, fold: string -> string)
    requires Accepted(db, s, fold)
    ensures RefersToRows(db, s)
  {
  }

  lemma StepKeepsKeys(db: Db, s: Step, fold: string -> string)
    requires KeysHold(db) && Accepted(db, s, fold)
    ensures KeysHold(Written(db, s))
  {
    hide Accepted, RefersToRows;
    AcceptedRefers(db, s, fold);
    RowKeys(db, s);
    JoinKeys(db, s);
    hide Written;
  }

  lemma RowKeys(db: Db, s: Step)
    requires KeysHold(db) && RefersToRows(db, s)
    ensures var r := Written(db, s);
      && (forall p :: p in r.participants ==> r.participants[p].cohort in r.cohorts)
      && (forall t :: t in r.teams ==> r.teams[t].cohort in r.cohorts)
      && (forall t :: t in r.teams && r.teams[t].brief.Some? ==> r.teams[t].brief.value in r.briefs)
  {
  }

  lemma JoinKeys(db: Db, s: Step)
    requires KeysHold(db) && RefersToRows(db, s)
    ensures var r := Written(db, s);
      && (forall m :: m in r.members ==> r.members[m].participant in r.participants && r.members[m].team in r.teams)
      && (forall c :: c in r.claims ==> r.claims[c].mentor in r.mentors && r.claims[c].team in r.teams)
  {
  }

  lemma TeamKeepsMembership(db: Db, s: Step, fold: string -> string, m: Id)
    requires s.SaveTeam? && Accepted(db, s, fold) && !Restores(db, s)
    requires m in db.members && db.members[m].participant in db.participants && db.members[m].team in db.teams
    requires MembershipAgrees(db, db.members[m])
    ensures MembershipAgrees(Written(db, s), db.members[m])
  {
  }

  lemma ParticipantKeepsMembership(db: Db, s: Step, fold: string -> string, m: Id)
    requires s.SaveParticipant? && Accepted(db, s, fold) && !Restores(db, s)
    requires m in db.members && db.members[m].participant in db.participants && db.members[m].team in db.teams
    requires MembershipAgrees(db, db.members[m])
    ensures MembershipAgrees(Written(db, s), db.members[m])
  {
  }

  lemma NewMembershipAgrees(db: Db, id: Id, m: Member, fold: string -> string)
    requires Accepted(db, SaveMember(id, m), fold)
    ensures m.participant in db.participants && m.team in db.teams && MembershipAgrees(db, m)
  {
  }

  lemma SameTablesAgree(db: Db, r: Db, m: Member)
    requires db.participants == r.participants && db.teams == r.teams
    requires m.participant in db.participants && m.team in db.teams && MembershipAgrees(db, m)
    ensures MembershipAgrees(r, m)
  {
  }

  lemma StepKeepsMemberships(db: Db, s: Step, fold: string -> string)
    requires GroupsHold(db) && Accepted(db, s, fold) && !Restores(db, s) && KeysHold(Written(db, s))
    ensures MembershipsAgree(Written(db, s))
  {
    hide Accepted, GroupsListed, Restores, MembershipAgrees;
    var r := Written(db, s);
    forall m | m in r.members ensures MembershipAgrees(r, r.members[m]) {
      if s.SaveTeam? {
        TeamKeepsMembership(db, s, fold, m);
      } else if s.SaveParticipant? {
        ParticipantKeepsMembership(db, s, fold, m);
      } else {
        if s.SaveMember? && m == s.id { NewMembershipAgrees(db, m, s.member, fold); }
        SameTablesAgree(db, r, r.members[m]);
      }
    }
  }

  lemma StepKeepsListings(db: Db, s: Step, fold: string -> string)
    requires GroupsHold(db) && Accepted(db, s, fold) && !Restores(db, s) && KeysHold(Written(db, s))
    ensures GroupsListed(Written(db, s))
  {
  }

  /** Every accepted step that restores no deleted team or participant keeps groups and cohorts
      in agreement across the four tables. */
  lemma StepKeepsGroups(db: Db, s: Step, fold: string -> string)
    requires GroupsHold(db) && !Restores(db, s)
    ensures GroupsHold(Next(db, s, fold))
  {
    hide KeysHold, MembershipsAgree, GroupsListed, Accepted, Restores, Written;
    if Accepted(db, s, fold) {
      StepKeepsKeys(db, s, fold);
      StepKeepsMemberships(db, s, fold);
      StepKeepsListings(db, s, fold);
    }
  }

  ghost function After(db: Db, steps: seq<Step>, fold: string -> string): Db {
    if steps == [] then db else Next(After(db, steps[..|steps| - 1], fold), steps[|steps| - 1], fold)
  }

  ghost predicate NoneRestores(db: Db, steps: seq<Step>, fold: string -> string) {
    forall i :: 0 <= i < |steps| ==> !Restores(After(db, steps[..i], fold), steps[i])
  }

  const EMPTY := Db(map[], map[], map[], map[], map[], map[], map[])

  /** Over every history of writes without restores. */
  lemma {:induction false} GroupsAlwaysAgree(steps: seq<Step>, fold: string -> string)
    requires NoneRestores(EMPTY, steps, fold)
    ensures GroupsHold(After(EMPTY, steps, fold))
  {
    if steps != [] {
      var rest := steps[..|steps| - 1];
      assert forall i :: 0 <= i < |rest| ==> rest[..i] == steps[..i] && rest[i] == steps[i];
      GroupsAlwaysAgree(rest, fold);
      StepKeepsGroups(After(EMPTY, rest, fold), steps[|steps| - 1], fold);
    }
  }

  /** A restored team keeps the agreement exactly when the team trigger, which such an update
      does not fire, would have accepted the row. */
  lemma RestoringTeam(db: Db, id: Id, t: Team)
    requires GroupsHold(db) && id in db.teams && db.teams[id].deleted && t == db.teams[id].(deleted := false)
    ensures GroupsHold(Written(db, SaveTeam(id, t, false, true))) <==> TeamGroupAccepted(db, id, t)
  {
    var r := Written(db, SaveTeam(id, t, false, true));
    assert r.teams[id] == t && !t.deleted && KeysHold(r);
    if GroupsHold(r) {
      forall m | m in db.members && db.members[m].team == id && !db.members[m].deleted
                 && !db.participants[db.members[m].participant].deleted
        ensures db.participants[db.members[m].participant].group == t.group
                && db.participants[db.members[m].participant].cohort == t.cohort
      {
        assert MembershipAgrees(r, r.members[m]);
      }
      assert MembersAgreeWith(db, id, t);
    } else if TeamGroupAccepted(db, id, t) {
      forall m | m in r.members ensures MembershipAgrees(r, r.members[m]) {
        assert MembershipAgrees(db, db.members[m]);
      }
      assert false;
    }
  }

  /** Likewise for a participant, whose trigger looks at the memberships only when group or
      cohort changes. */
  lemma RestoringParticipant(db: Db, id: Id, p: Participant)
    requires GroupsHold(db) && id in db.participants && db.participants[id].deleted
    requires p == db.participants[id].(deleted := false)
    ensures GroupsHold(Written(db, SaveParticipant(id, p))) <==>
            Listed(p.group, db.cohorts[p.cohort].groups) && TeamsAgreeWith(db, id, p)
  {
    var r := Written(db, SaveParticipant(id, p));
    assert r.participants[id] == p && !p.deleted && KeysHold(r);
    if GroupsHold(r) {
      forall m | m in db.members && db.members[m].participant == id && !db.members[m].deleted
                 && !db.teams[db.members[m].team].deleted
        ensures db.teams[db.members[m].team].group == p.group && db.teams[db.members[m].team].cohort == p.cohort
      {
        assert MembershipAgrees(r, r.members[m]);
      }
      assert TeamsAgreeWith(db, id, p);
    } else if Listed(p.group, db.cohorts[p.cohort].groups) && TeamsAgreeWith(db, id, p) {
      forall m | m in r.members ensures MembershipAgrees(r, r.members[m]) {
        assert MembershipAgrees(db, db.members[m]);
      }
      assert false;
    }
  }

  /** A restore that the triggers accept and that breaks the agreement: the participant moved to
      another group while the team was deleted. */
  lemma RestoreCanDisagree(fold: string -> string) returns (db: Db, s: Step)
    ensures GroupsHold(db) && Accepted(db, s, fold) && Restores(db, s) && !GroupsHold(Written(db, s))
  {
    var team := Team("c", Some("a"), None, false, true);
    db := EMPTY.(
      cohorts := map["c" := Cohort(["a", "b"], 5)],
      participants := map["p" := Participant("c", Some("b"), false)],
      teams := map["t" := team],
      members := map["m" := Member("p", "t", true, false)]);
    s := SaveTeam("t", team.(deleted := false), false, true);
    assert !MembershipAgrees(Written(db, s), Written(db, s).members["m"]);
  }

  // ---------------------------------------------------------------- capacities

  ghost predicate TeamsWithinCap(db: Db)
    requires KeysHold(db)
  {
    forall t :: t in db.teams ==> |ConfirmedIn(db.members, t)| <= db.cohorts[db.teams[t].cohort].teamSizeMax
  }

  ghost predicate BriefsWithinCap(db: Db) {
    forall b :: b in db.briefs ==> |AssignedTo(db.teams, b)| <= db.briefs[b].maxTeams
  }

  ghost predicate MentorsWithinCap(db: Db) {
    forall m :: m in db.mentors ==> |ActiveOf(db.claims, m)| <= db.mentors[m].maxClaims
  }

  ghost predicate OneTeamEach(db: Db) {
    forall m, n :: (m in db.members && n in db.members && m != n
                    && db.members[m].confirmed && !db.members[m].deleted
                    && db.members[n].confirmed && !db.members[n].deleted) ==>
      db.members[m].participant != db.members[n].participant
  }

  ghost predicate OneClaimEach(db: Db) {
    forall c, d :: (c in db.claims && d in db.claims && c != d
                    && db.claims[c].active && !db.claims[c].deleted
                    && db.claims[d].active && !db.claims[d].deleted) ==>
      db.claims[c].team != db.claims[d].team
  }

  ghost predicate CapsHold(db: Db) {
    KeysHold(db) && TeamsWithinCap(db) && BriefsWithinCap(db) && MentorsWithinCap(db) && OneTeamEach(db) && OneClaimEach(db)
  }

  /** No cap is lowered, no new cap is negative, and no team moves to another cohort. */
  predicate RespectsCaps(db: Db, s: Step) {
    match s
    case SaveCohort(id, c) => if id in db.cohorts then db.cohorts[id].teamSizeMax <= c.teamSizeMax else 0 <= c.teamSizeMax
    case SaveBrief(id, b) => if id in db.briefs then db.briefs[id].maxTeams <= b.maxTeams else 0 <= b.maxTeams
    case SaveMentor(id, m) => if id in db.mentors then db.mentors[id].maxClaims <= m.maxClaims else 0 <= m.maxClaims
    case SaveTeam(id, t, _, _) =>
      if id in db.teams then t.cohort == db.teams[id].cohort
      else t.cohort in db.cohorts ==> 0 <= db.cohorts[t.cohort].teamSizeMax
    case _ => true
  }

  /** What is already there fits: under the new cap of a brief, a mentor or a cohort, and for a team
      under the cap of the cohort it is in from now on. */
  predicate Fits(db: Db, s: Step) {
    match s
    case SaveCohort(id, c) =>
      forall t :: t in db.teams && db.teams[t].cohort == id ==> |ConfirmedIn(db.members, t)| <= c.teamSizeMax
    case SaveBrief(id, b) => |AssignedTo(db.teams, id)| <= b.maxTeams
    case SaveMentor(id, m) => |ActiveOf(db.claims, id)| <= m.maxClaims
    case SaveTeam(id, t, _, _) =>
      t.cohort in db.cohorts ==> |ConfirmedIn(db.members, id)| <= db.cohorts[t.cohort].teamSizeMax
    case _ => true
  }

  lemma OneMore(a: set<Id>, b: set<Id>, id: Id, cap: int)
    requires a <= b + {id}
    requires |b| <= cap && (id in a ==> |b - {id}| < cap)
    ensures |a| <= cap
  {
    if id in a {
      SubsetSize(a, (b - {id}) + {id});
    } else {
      SubsetSize(a, b);
    }
  }

  lemma ConfirmedAfter(db: Db, id: Id, m: Member, fold: string -> string, t: Id)
    requires Accepted(db, SaveMember(id, m), fold) && t in db.teams && db.teams[t].cohort in db.cohorts
    ensures ConfirmedIn(db.members[id := m], t) <= ConfirmedIn(db.members, t) + {id}
    ensures id in ConfirmedIn(db.members[id := m], t) ==>
      |ConfirmedIn(db.members, t) - {id}| < db.cohorts[db.teams[t].cohort].teamSizeMax
  {
    hide GroupsMatch, NoOtherTeam;
  }

  lemma MemberStepKeepsTeams(db: Db, id: Id, m: Member, fold: string -> string)
    requires KeysHold(db) && TeamsWithinCap(db) && Accepted(db, SaveMember(id, m), fold)
    ensures KeysHold(Written(db, SaveMember(id, m))) && TeamsWithinCap(Written(db, SaveMember(id, m)))
  {
    var r := Written(db, SaveMember(id, m));
    StepKeepsKeys(db, SaveMember(id, m), fold);
    hide Accepted, ConfirmedIn;
    forall t | t in r.teams ensures |ConfirmedIn(r.members, t)| <= r.cohorts[r.teams[t].cohort].teamSizeMax {
      ConfirmedAfter(db, id, m, fold, t);
      OneMore(ConfirmedIn(r.members, t), ConfirmedIn(db.members, t), id, db.cohorts[db.teams[t].cohort].teamSizeMax);
    }
  }

  lemma AssignedAfter(db: Db, s: Step, fold: string -> string, b: Id)
    requires s.SaveTeam? && Accepted(db, s, fold) && b in db.briefs
    ensures AssignedTo(Written(db, s).teams, b) <= AssignedTo(db.teams, b) + {s.id}
    ensures s.id in AssignedTo(Written(db, s).teams, b) ==>
      s.id in AssignedTo(db.teams, b) || |AssignedTo(db.teams, b) - {s.id}| < db.briefs[b].maxTeams
  {
  }

  lemma TeamStepKeepsBriefs(db: Db, s: Step, fold: string -> string)
    requires BriefsWithinCap(db) && s.SaveTeam? && Accepted(db, s, fold)
    ensures BriefsWithinCap(Written(db, s))
  {
    hide Accepted, AssignedTo;
    var r := Written(db, s);
    forall b | b in r.briefs ensures |AssignedTo(r.teams, b)| <= r.briefs[b].maxTeams {
      AssignedAfter(db, s, fold, b);
      if s.id in AssignedTo(db.teams, b) {
        SubsetSize(AssignedTo(r.teams, b), AssignedTo(db.teams, b));
      } else {
        OneMore(AssignedTo(r.teams, b), AssignedTo(db.teams, b), s.id, db.briefs[b].maxTeams);
      }
    }
  }

  lemma TeamStepKeepsTeams(db: Db, s: Step, fold: string -> string)
    requires KeysHold(db) && TeamsWithinCap(db) && s.SaveTeam? && Accepted(db, s, fold)
    ensures KeysHold(Written(db, s)) && (TeamsWithinCap(Written(db, s)) <==> Fits(db, s))
  {
    var r := Written(db, s);
    StepKeepsKeys(db, s, fold);
    assert s.id in r.teams && r.teams[s.id] == s.team && s.team.cohort in db.cohorts;
    hide ConfirmedIn, Accepted, KeysHold;
  }

  lemma ClaimStepKeepsMentors(db: Db, id: Id, c: Claim, fold: string -> string)
    requires MentorsWithinCap(db) && Accepted(db, SaveClaim(id, c), fold)
    ensures MentorsWithinCap(Written(db, SaveClaim(id, c)))
  {
    var r := Written(db, SaveClaim(id, c));
    forall m | m in r.mentors ensures |ActiveOf(r.claims, m)| <= r.mentors[m].maxClaims {
      OneMore(ActiveOf(r.claims, m), ActiveOf(db.claims, m), id, db.mentors[m].maxClaims);
    }
  }

  lemma CohortStepKeepsTeams(db: Db, id: Id, c: Cohort, fold: string -> string)
    requires KeysHold(db) && TeamsWithinCap(db) && Accepted(db, SaveCohort(id, c), fold)
    ensures KeysHold(Written(db, SaveCohort(id, c)))
    ensures TeamsWithinCap(Written(db, SaveCohort(id, c))) <==> Fits(db, SaveCohort(id, c))
  {
    StepKeepsKeys(db, SaveCohort(id, c), fold);
    hide ConfirmedIn, Accepted;
  }

  lemma BriefStepKeepsBriefs(db: Db, id: Id, b: Brief)
    requires BriefsWithinCap(db)
    ensures BriefsWithinCap(Written(db, SaveBrief(id, b))) <==> Fits(db, SaveBrief(id, b))
  {
    assert id in Written(db, SaveBrief(id, b)).briefs;
    hide AssignedTo;
  }

  lemma MentorStepKeepsMentors(db: Db, id: Id, m: Mentor)
    requires MentorsWithinCap(db)
    ensures MentorsWithinCap(Written(db, SaveMentor(id, m))) <==> Fits(db, SaveMentor(id, m))
  {
    assert id in Written(db, SaveMentor(id, m)).mentors;
    hide ActiveOf;
  }

  lemma RemovedMember(db: Db, id: Id, fold: string -> string)
    requires KeysHold(db) && TeamsWithinCap(db)
    ensures KeysHold(Written(db, RemoveMember(id))) && TeamsWithinCap(Written(db, RemoveMember(id)))
  {
    var r := Written(db, RemoveMember(id));
    StepKeepsKeys(db, RemoveMember(id), fold);
    forall t ensures ConfirmedIn(r.members, t) <= ConfirmedIn(db.members, t) {
    }
    hide ConfirmedIn, KeysHold;
    forall t | t in r.teams ensures |ConfirmedIn(r.members, t)| <= r.cohorts[r.teams[t].cohort].teamSizeMax {
      SubsetSize(ConfirmedIn(r.members, t), ConfirmedIn(db.members, t));
    }
  }

  lemma RemovedClaim(db: Db, id: Id)
    requires MentorsWithinCap(db)
    ensures MentorsWithinCap(Written(db, RemoveClaim(id)))
  {
    var r := Written(db, RemoveClaim(id));
    forall m | m in r.mentors ensures |ActiveOf(r.claims, m)| <= r.mentors[m].maxClaims {
      SubsetSize(ActiveOf(r.claims, m), ActiveOf(db.claims, m));
    }
  }

  lemma UnreadTables(db: Db, r: Db)
    requires KeysHold(db) && KeysHold(r)
    ensures TeamsWithinCap(db) && db.members == r.members && db.teams == r.teams && db.cohorts == r.cohorts ==> TeamsWithinCap(r)
    ensures BriefsWithinCap(db) && db.teams == r.teams && db.briefs == r.briefs ==> BriefsWithinCap(r)
    ensures MentorsWithinCap(db) && db.claims == r.claims && db.mentors == r.mentors ==> MentorsWithinCap(r)
  {
    hide KeysHold, ConfirmedIn, AssignedTo, ActiveOf;
  }

  lemma StepKeepsIndexes(db: Db, s: Step, fold: string -> string)
    requires OneTeamEach(db) && OneClaimEach(db) && Accepted(db, s, fold)
    ensures OneTeamEach(Written(db, s)) && OneClaimEach(Written(db, s))
  {
  }

  /** Inserts, updates, soft deletes, restores and removals alike: an accepted step keeps all caps and
      unique indexes if and only if what is already there fits. */
  lemma CapsKeptExactly(db: Db, s: Step, fold: string -> string)
    requires CapsHold(db) && Accepted(db, s, fold)
    ensures CapsHold(Written(db, s)) <==> Fits(db, s)
  {
    hide Accepted, KeysHold, TeamsWithinCap, BriefsWithinCap, MentorsWithinCap, OneTeamEach, OneClaimEach;
    StepKeepsIndexes(db, s, fold);
    StepKeepsKeys(db, s, fold);
    UnreadTables(db, Written(db, s));
    match s
    case SaveMember(id, m) => MemberStepKeepsTeams(db, id, m, fold);
    case SaveTeam(_, _, _, _) =>
      TeamStepKeepsTeams(db, s, fold);
      TeamStepKeepsBriefs(db, s, fold);
    case SaveClaim(id, c) => ClaimStepKeepsMentors(db, id, c, fold);
    case RemoveMember(id) => RemovedMember(db, id, fold);
    case RemoveClaim(id) => RemovedClaim(db, id);
    case SaveCohort(id, c) => CohortStepKeepsTeams(db, id, c, fold);
    case SaveBrief(id, b) => BriefStepKeepsBriefs(db, id, b);
    case SaveMentor(id, m) => MentorStepKeepsMentors(db, id, m);
    case SaveParticipant(_, _) =>
    hide Fits, Written;
  }

  /** What does not exist yet has nobody in it. */
  lemma NewIsEmpty(db: Db, id: Id)
    requires KeysHold(db)
    ensures id !in db.teams ==> ConfirmedIn(db.members, id) == {}
    ensures id !in db.briefs ==> AssignedTo(db.teams, id) == {}
    ensures id !in db.mentors ==> ActiveOf(db.claims, id) == {}
  {
  }

  /** So no accepted step exceeds a cap that is not lowered, while teams stay in their cohort. */
  lemma StepKeepsCaps(db: Db, s: Step, fold: string -> string)
    requires CapsHold(db) && RespectsCaps(db, s)
    ensures CapsHold(Next(db, s, fold))
  {
    if Accepted(db, s, fold) {
      assert Fits(db, s) by {
        if s.SaveTeam? || s.SaveBrief? || s.SaveMentor? {
          NewIsEmpty(db, s.id);
        }
        hide Accepted, ConfirmedIn, AssignedTo, ActiveOf;
      }
      CapsKeptExactly(db, s, fold);
    }
    hide Accepted, Fits, CapsHold, RespectsCaps, Written;
  }

  lemma ExactlyOneMore(before: set<Id>, after: set<Id>, id: Id, cap: int)
    requires after == (before - {id}) + {id}
    ensures |before - {id}| < cap <==> |after| <= cap
  {
  }

  /** The triggers count the other rows: a row that counts is let in exactly when the table with
      that row is within its cap. First confirmed members, then claims, then assigned teams. */
  lemma TeamGuardIsExact(db: Db, id: Id, m: Member, cap: int)
    requires m.confirmed && !m.deleted
    ensures |ConfirmedIn(db.members, m.team) - {id}| < cap <==> |ConfirmedIn(db.members[id := m], m.team)| <= cap
  {
    ExactlyOneMore(ConfirmedIn(db.members, m.team), ConfirmedIn(db.members[id := m], m.team), id, cap);
  }

  lemma MentorGuardIsExact(db: Db, id: Id, c: Claim, cap: int)
    requires c.active && !c.deleted
    ensures |ActiveOf(db.claims, c.mentor) - {id}| < cap <==> |ActiveOf(db.claims[id := c], c.mentor)| <= cap
  {
    ExactlyOneMore(ActiveOf(db.claims, c.mentor), ActiveOf(db.claims[id := c], c.mentor), id, cap);
  }

  lemma BriefGuardIsExact(db: Db, id: Id, t: Team, cap: int)
    requires t.brief.Some? && !t.disqualified && !t.deleted
    ensures |AssignedTo(db.teams, t.brief.value) - {id}| < cap <==> |AssignedTo(db.teams[id := t], t.brief.value)| <= cap
  {
    ExactlyOneMore(AssignedTo(db.teams, t.brief.value), AssignedTo(db.teams[id := t], t.brief.value), id, cap);
  }

  ghost predicate AllRespectCaps(db: Db, steps: seq<Step>, fold: string -> string) {
    forall i :: 0 <= i < |steps| ==> RespectsCaps(After(db, steps[..i], fold), steps[i])
  }

  /** Over every history that lowers no cap and moves no team: teams, briefs and mentors stay
      within their caps, nobody has two confirmed teams, and no team has two active claims. */
  lemma {:induction false} CapsAlwaysHold(steps: seq<Step>, fold: string -> string)
    requires AllRespectCaps(EMPTY, steps, fold)
    ensures CapsHold(After(EMPTY, steps, fold))
  {
    if steps != [] {
      var rest := steps[..|steps| - 1];
      assert forall i :: 0 <= i < |rest| ==> rest[..i] == steps[..i] && rest[i] == steps[i];
      CapsAlwaysHold(rest, fold);
      StepKeepsCaps(After(EMPTY, rest, fold), steps[|steps| - 1], fold);
    }
  }

  ghost predicate HoldsAt(steps: seq<Step>, fold: string -> string, i: nat)
    requires i <= |steps|
  {
    CapsHold(After(EMPTY, steps[..i], fold))
  }

  ghost predicate FitsAt(steps: seq<Step>, fold: string -> string, i: nat)
    requires i < |steps|
  {
    var db := After(EMPTY, steps[..i], fold);
    Accepted(db, steps[i], fold) ==> Fits(db, steps[i])
  }

  lemma OneStep(steps: seq<Step>, fold: string -> string, i: nat)
    requires i < |steps|
    ensures After(EMPTY, steps[..i + 1], fold) == Next(After(EMPTY, steps[..i], fold), steps[i], fold)
  {
    assert steps[..i + 1][..i] == steps[..i];
    hide Accepted, Written;
  }

  /** One step of a history whose caps hold before it. */
  lemma StepHoldsExactly(steps: seq<Step>, fold: string -> string, i: nat)
    requires i < |steps| && HoldsAt(steps, fold, i)
    ensures HoldsAt(steps, fold, i + 1) <==> FitsAt(steps, fold, i)
  {
    OneStep(steps, fold, i);
    var db := After(EMPTY, steps[..i], fold);
    if Accepted(db, steps[i], fold) {
      CapsKeptExactly(db, steps[i], fold);
    }
    hide CapsHold, Accepted, Fits, Written, After;
  }

  lemma {:induction false} FittingHolds(steps: seq<Step>, fold: string -> string, i: nat)
    requires i <= |steps| && forall k :: 0 <= k < i ==> FitsAt(steps, fold, k)
    ensures HoldsAt(steps, fold, i)
  {
    if i == 0 {
      assert After(EMPTY, steps[..0], fold) == EMPTY;
    } else {
      FittingHolds(steps, fold, i - 1);
      StepHoldsExactly(steps, fold, i - 1);
    }
    hide After, FitsAt;
  }

  /** Lowering a cap and moving a team are never checked against what is already there: over every
      history the caps hold throughout if and only if each accepted step finds that it fits. */
  lemma CapsHoldExactly(steps: seq<Step>, fold: string -> string)
    ensures (forall i :: 0 <= i <= |steps| ==> HoldsAt(steps, fold, i)) <==> (forall i :: 0 <= i < |steps| ==> FitsAt(steps, fold, i))
  {
    hide HoldsAt, FitsAt;
    if forall i :: 0 <= i < |steps| ==> FitsAt(steps, fold, i) {
      forall i | 0 <= i <= |steps| ensures HoldsAt(steps, fold, i) {
        FittingHolds(steps, fold, i);
      }
    } else if forall i :: 0 <= i <= |steps| ==> HoldsAt(steps, fold, i) {
      forall i | 0 <= i < |steps| ensures FitsAt(steps, fold, i) {
        assert HoldsAt(steps, fold, i + 1);
        StepHoldsExactly(steps, fold, i);
      }
    }
  }

  // ---------------------------------------------------------------- the tables in place

  /** The seven tables, written one row at a time behind their triggers. */
  class Tables {
    var cohorts: map<Id, Cohort>
    var participants: map<Id, Participant>
    var teams: map<Id, Team>
    var members: map<Id, Member>
    var briefs: map<Id, Brief>
    var mentors: map<Id, Mentor>
    var claims: map<Id, Claim>
    const fold: string -> string

    function Contents(): Db
      reads this
    {
      Db(cohorts, participants, teams, members, briefs, mentors, claims)
    }

    constructor (fold: string -> string)
      ensures Contents() == EMPTY && GroupsHold(Contents()) && CapsHold(Contents())
    {
      this.fold := fold;
      cohorts, participants, teams, members, briefs, mentors, claims := map[], map[], map[], map[], map[], map[], map[];
    }

    method Save(s: Step) returns (ok: bool)
      modifies this
      ensures ok == Accepted(old(Contents()), s, fold)
      ensures Contents() == Next(old(Contents()), s, fold)
      ensures old(GroupsHold(Contents())) && !Restores(old(Contents()), s) ==> GroupsHold(Contents())
      ensures old(CapsHold(Contents())) && RespectsCaps(old(Contents()), s) ==> CapsHold(Contents())
    {
      hide Accepted, GroupsHold, CapsHold, Restores, RespectsCaps;
      KeptBySave(Contents(), s);
      ok := Accepted(Contents(), s, fold);
      if ok {
        Store(s);
      }
    }

    lemma KeptBySave(db: Db, s: Step)
      ensures GroupsHold(db) && !Restores(db, s) ==> GroupsHold(Next(db, s, fold))
      ensures CapsHold(db) && RespectsCaps(db, s) ==> CapsHold(Next(db, s, fold))
    {
      hide Accepted, GroupsHold, CapsHold, Restores, RespectsCaps;
      if GroupsHold(db) && !Restores(db, s) { StepKeepsGroups(db, s, fold); }
      if CapsHold(db) && RespectsCaps(db, s) { StepKeepsCaps(db, s, fold); }
    }

    method Store(s: Step)
      modifies this
      ensures Contents() == Written(old(Contents()), s)
    {
      match s {
        case SaveCohort(id, c) => cohorts := cohorts[id := c];
        case SaveParticipant(id, p) => participants := participants[id := p];
        case SaveTeam(id, t, _, _) => teams := teams[id := t];
        case SaveMember(id, m) => members := members[id := m];
        case SaveBrief(id, b) => briefs := briefs[id := b];
        case SaveMentor(id, m) => mentors := mentors[id := m];
        case SaveClaim(id, c) => claims := claims[id := c];
        case RemoveMember(id) => members := members - {id};
        case RemoveClaim(id) => claims := claims - {id};
      }
    }
  }
}
