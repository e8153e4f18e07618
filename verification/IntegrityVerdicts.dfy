/** What the triggers' answers mean for the tables, column by column: which writes are accepted, and
    what holds over every history of them. */
module IntegrityVerdicts {
  import opened Prelude
  import opened Integrity

  // ---------------------------------------------------------------- what the invariants say

  /** Groups in agreement: a live membership joins a live participant and a live team of one cohort and
      one group, and a live group is one of its cohort's. */
  lemma GroupsMean(db: Db)
    requires GroupsHold(db)
    ensures forall m :: m in db.members && !db.members[m].deleted ==>
      && db.members[m].participant in db.participants && db.members[m].team in db.teams
      && var p, t := db.participants[db.members[m].participant], db.teams[db.members[m].team];
         (!p.deleted && !t.deleted ==> p.cohort == t.cohort && p.group == t.group)
    ensures forall p :: p in db.participants && !db.participants[p].deleted && db.participants[p].group.Some? ==>
      && db.participants[p].cohort in db.cohorts
      && db.participants[p].group.value in db.cohorts[db.participants[p].cohort].groups
    ensures forall t :: t in db.teams && !db.teams[t].deleted && db.teams[t].group.Some? ==>
      db.teams[t].cohort in db.cohorts && db.teams[t].group.value in db.cohorts[db.teams[t].cohort].groups
  {
    forall m | m in db.members ensures MembershipAgrees(db, db.members[m]) {
    }
  }

  /** Caps: confirmed members of a team, teams that work on a brief, and active claims of a mentor. */
  lemma CapsMean(db: Db, id: Id)
    requires CapsHold(db)
    ensures id in db.teams ==>
      && db.teams[id].cohort in db.cohorts
      && |set m | m in db.members && db.members[m].team == id && db.members[m].confirmed && !db.members[m].deleted|
         <= db.cohorts[db.teams[id].cohort].teamSizeMax
    ensures id in db.briefs ==>
      |set t | t in db.teams && db.teams[t].brief == Some(id) && !db.teams[t].disqualified && !db.teams[t].deleted|
      <= db.briefs[id].maxTeams
    ensures id in db.mentors ==>
      |set c | c in db.claims && db.claims[c].mentor == id && db.claims[c].active && !db.claims[c].deleted| <= db.mentors[id].maxClaims
  {
    MembersByColumns(db, id);
    TeamsByColumns(db, id);
    ClaimsByColumns(db, id);
    hide ConfirmedIn, AssignedTo, ActiveOf;
  }

  /** No participant has two confirmed memberships, and no team two active claims. */
  lemma OneEachMeans(db: Db, a: Id, b: Id)
    requires CapsHold(db)
    ensures (a in db.members && b in db.members && db.members[a].participant == db.members[b].participant
      && db.members[a].confirmed && !db.members[a].deleted && db.members[b].confirmed && !db.members[b].deleted) ==> a == b
    ensures (a in db.claims && b in db.claims && db.claims[a].team == db.claims[b].team
      && db.claims[a].active && !db.claims[a].deleted && db.claims[b].active && !db.claims[b].deleted) ==> a == b
  {
    hide KeysHold, TeamsWithinCap, BriefsWithinCap, MentorsWithinCap;
  }

  lemma MembersByColumns(db: Db, t: Id)
    ensures ConfirmedIn(db.members, t)
         == set m | m in db.members && db.members[m].team == t && db.members[m].confirmed && !db.members[m].deleted
  {
  }

  lemma TeamsByColumns(db: Db, b: Id)
    ensures AssignedTo(db.teams, b)
         == set t | t in db.teams && db.teams[t].brief == Some(b) && !db.teams[t].disqualified && !db.teams[t].deleted
  {
  }

  lemma ClaimsByColumns(db: Db, n: Id)
    ensures ActiveOf(db.claims, n)
         == set c | c in db.claims && db.claims[c].mentor == n && db.claims[c].active && !db.claims[c].deleted
  {
  }

  // ---------------------------------------------------------------- which writes are accepted

  /** A membership is accepted exactly when participant and team are of one cohort, a live one shares
      the team's group, which a cohort with groups requires, and a live confirmed one is the
      participant's only one and leaves the team within its size. */
  lemma MemberVerdict(db: Db, id: Id, m: Member, fold: string -> string)
    requires KeysHold(db)
    ensures Accepted(db, SaveMember(id, m), fold) <==>
      && m.participant in db.participants && m.team in db.teams
      && var p, t := db.participants[m.participant], db.teams[m.team];
         && p.cohort == t.cohort
         && (!m.deleted ==> p.group == t.group && (0 < |db.cohorts[t.cohort].groups| ==> t.group.Some?))
         && (m.confirmed && !m.deleted ==>
               && (forall other :: (other in db.members && other != id && db.members[other].participant == m.participant
                                    && db.members[other].confirmed) ==> db.members[other].deleted)
               && var after := db.members[id := m];
                  |set n | n in after && after[n].team == m.team && after[n].confirmed && !after[n].deleted|
                  <= db.cohorts[t.cohort].teamSizeMax)
  {
    hide ConfirmedIn, TeamHasRoom;
    if m.participant in db.participants && m.team in db.teams {
      RoomVerdict(db, id, m);
    }
  }

  lemma RoomVerdict(db: Db, id: Id, m: Member)
    requires KeysHold(db) && m.participant in db.participants && m.team in db.teams
    ensures TeamHasRoom(db, id, m) <==>
      && db.participants[m.participant].cohort == db.teams[m.team].cohort
      && (m.confirmed && !m.deleted ==>
            var after := db.members[id := m];
            |set n | n in after && after[n].team == m.team && after[n].confirmed && !after[n].deleted|
            <= db.cohorts[db.teams[m.team].cohort].teamSizeMax)
  {
    var after := db.members[id := m];
    assert ConfirmedIn(after, m.team) == set n | n in after && after[n].team == m.team && after[n].confirmed && !after[n].deleted;
    hide ConfirmedIn;
    if m.confirmed && !m.deleted {
      TeamGuardIsExact(db, id, m, db.cohorts[db.teams[m.team].cohort].teamSizeMax);
    }
  }

  /** A claim is accepted exactly when, if it is active and live, its mentor is active and in the
      team's cohort, within the number of claims afterwards, and the team has no other one. */
  lemma ClaimVerdict(db: Db, id: Id, c: Claim, fold: string -> string)
    ensures Accepted(db, SaveClaim(id, c), fold) <==>
      && c.mentor in db.mentors && c.team in db.teams
      && (c.active && !c.deleted ==>
            && db.mentors[c.mentor].active && db.mentors[c.mentor].cohort == db.teams[c.team].cohort
            && (forall other :: (other in db.claims && other != id && db.claims[other].team == c.team
                                 && db.claims[other].active) ==> db.claims[other].deleted)
            && var after := db.claims[id := c];
               |set d | d in after && after[d].mentor == c.mentor && after[d].active && !after[d].deleted|
               <= db.mentors[c.mentor].maxClaims)
  {
    var after := db.claims[id := c];
    assert ActiveOf(after, c.mentor) == set d | d in after && after[d].mentor == c.mentor && after[d].active && !after[d].deleted;
    hide ActiveOf;
    if c.active && !c.deleted && c.mentor in db.mentors {
      MentorGuardIsExact(db, id, c, db.mentors[c.mentor].maxClaims);
    }
  }

  /** The brief of a team that is inserted, or whose brief is named: a live team that is not
      disqualified gets a brief exactly when this is approved, of the team's cohort, and within its
      number of teams afterwards. */
  lemma BriefVerdict(db: Db, id: Id, t: Team)
    ensures BriefAccepts(db, id, t) <==>
      t.brief.None? || t.deleted || t.disqualified ||
      (&& t.brief.value in db.briefs
       && db.briefs[t.brief.value].approved && db.briefs[t.brief.value].cohort == t.cohort
       && var after := db.teams[id := t];
          |set u | u in after && after[u].brief == t.brief && !after[u].disqualified && !after[u].deleted|
          <= db.briefs[t.brief.value].maxTeams)
  {
    if t.brief.Some? && !t.deleted && !t.disqualified {
      var after := db.teams[id := t];
      assert AssignedTo(after, t.brief.value) == set u | u in after && after[u].brief == t.brief && !after[u].disqualified && !after[u].deleted;
      if t.brief.value in db.briefs {
        BriefGuardIsExact(db, id, t, db.briefs[t.brief.value].maxTeams);
      }
    }
    hide AssignedTo;
  }

  /** A team that restores nothing is accepted exactly when its brief is, the groups agree afterwards,
      and a new live team of a cohort with groups has one. */
  lemma TeamVerdict(db: Db, id: Id, t: Team, namesGroup: bool, namesBrief: bool, fold: string -> string)
    requires GroupsHold(db)
    requires var s := SaveTeam(id, t, namesGroup, namesBrief); NamesItsChanges(db, s) && !Restores(db, s)
    ensures var s := SaveTeam(id, t, namesGroup, namesBrief);
      Accepted(db, s, fold) <==>
        && GroupsHold(Written(db, s)) && (id !in db.teams || namesBrief ==> BriefAccepts(db, id, t))
        && (id !in db.teams && !t.deleted && t.cohort in db.cohorts && 0 < |db.cohorts[t.cohort].groups| ==> t.group.Some?)
  {
    var s := SaveTeam(id, t, namesGroup, namesBrief);
    if Accepted(db, s, fold) {
      StepKeepsGroups(db, s, fold);
    }
    if GroupsHold(Written(db, s)) {
      SavedTeamIsListed(db, s);
      if !t.deleted {
        TeamAgrees(db, s);
      }
    }
    hide GroupsHold, MembersAgreeWith, BriefAccepts, Written;
  }

  lemma SavedTeamIsListed(db: Db, s: Step)
    requires GroupsHold(db) && s.SaveTeam? && GroupsHold(Written(db, s))
    ensures s.team.cohort in db.cohorts && (s.team.brief.Some? ==> s.team.brief.value in db.briefs)
    ensures !s.team.deleted ==> Listed(s.team.group, db.cohorts[s.team.cohort].groups)
  {
    assert s.id in Written(db, s).teams && Written(db, s).teams[s.id] == s.team;
  }

  lemma TeamAgrees(db: Db, s: Step)
    requires GroupsHold(db) && s.SaveTeam? && GroupsHold(Written(db, s)) && !s.team.deleted
    ensures MembersAgreeWith(db, s.id, s.team)
  {
    var r := Written(db, s);
    forall m | m in db.members && db.members[m].team == s.id && !db.members[m].deleted
               && db.members[m].participant in db.participants && !db.participants[db.members[m].participant].deleted
      ensures db.participants[db.members[m].participant].group == s.team.group
      ensures db.participants[db.members[m].participant].cohort == s.team.cohort
    {
      assert MembershipAgrees(r, r.members[m]);
    }
  }

  /** A participant that is not restored is accepted exactly when the groups agree afterwards, and one
      who enters a cohort with groups, new or from another cohort, has a group. */
  lemma ParticipantVerdict(db: Db, id: Id, p: Participant, fold: string -> string)
    requires GroupsHold(db) && !Restores(db, SaveParticipant(id, p))
    ensures Accepted(db, SaveParticipant(id, p), fold) <==>
      && GroupsHold(Written(db, SaveParticipant(id, p)))
      && (!p.deleted && p.group.None? && p.cohort in db.cohorts && 0 < |db.cohorts[p.cohort].groups| ==>
            id in db.participants && db.participants[id].cohort == p.cohort)
  {
    var s := SaveParticipant(id, p);
    if Accepted(db, s, fold) {
      StepKeepsGroups(db, s, fold);
    }
    if GroupsHold(Written(db, s)) {
      ParticipantAgrees(db, s);
    }
    hide GroupsHold, TeamsAgreeWith;
  }

  /** A restored one is looked at less: it needs a listed group, and one at all in a cohort with groups;
      but its live teams are asked only when the restore changes its group or cohort too. */
  lemma RestoredParticipantVerdict(db: Db, id: Id, p: Participant, fold: string -> string)
    requires Restores(db, SaveParticipant(id, p))
    ensures Accepted(db, SaveParticipant(id, p), fold) <==>
      && p.cohort in db.cohorts
      && (if p.group.None? then db.cohorts[p.cohort].groups == [] else p.group.value in db.cohorts[p.cohort].groups)
      && (db.participants[id] == p.(deleted := true) ||
          forall m :: m in db.members && db.members[m].participant == id && !db.members[m].deleted
                      && db.members[m].team in db.teams && !db.teams[db.members[m].team].deleted ==>
            db.teams[db.members[m].team].group == p.group && db.teams[db.members[m].team].cohort == p.cohort)
  {
  }

  lemma ParticipantAgrees(db: Db, s: Step)
    requires s.SaveParticipant? && GroupsHold(Written(db, s))
    ensures s.participant.cohort in db.cohorts
    ensures !s.participant.deleted ==>
      Listed(s.participant.group, db.cohorts[s.participant.cohort].groups) && TeamsAgreeWith(db, s.id, s.participant)
  {
    var r := Written(db, s);
    assert s.id in r.participants && r.participants[s.id] == s.participant;
    if !s.participant.deleted {
      forall m | m in db.members && db.members[m].participant == s.id && !db.members[m].deleted
                 && db.members[m].team in db.teams && !db.teams[db.members[m].team].deleted
        ensures db.teams[db.members[m].team].group == s.participant.group
        ensures db.teams[db.members[m].team].cohort == s.participant.cohort
      {
        assert MembershipAgrees(r, r.members[m]);
      }
    }
  }

  /** New groups of a cohort are accepted exactly when they are at most 100 names of 1 to 100 characters
      without spaces at their ends, different in lower case too, and the groups in use are among them. */
  lemma CohortVerdict(db: Db, id: Id, c: Cohort, fold: string -> string)
    requires GroupsHold(db)
    ensures Accepted(db, SaveCohort(id, c), fold) <==>
      (id in db.cohorts && db.cohorts[id].groups == c.groups) ||
      (&& |c.groups| <= 100
       && (forall i :: 0 <= i < |c.groups| ==>
             1 <= |c.groups[i]| <= 100 && c.groups[i][0] != ' ' && c.groups[i][|c.groups[i]| - 1] != ' ')
       && (forall i, j :: 0 <= i < j < |c.groups| ==> fold(c.groups[i]) != fold(c.groups[j]))
       && GroupsHold(Written(db, SaveCohort(id, c))))
  {
    var s := SaveCohort(id, c);
    if Accepted(db, s, fold) {
      StepKeepsGroups(db, s, fold);
    }
  }

  /** Briefs and mentors belong to a cohort that exists. */
  ghost predicate PartnersPlaced(db: Db) {
    && (forall b :: b in db.briefs ==> db.briefs[b].cohort in db.cohorts)
    && (forall n :: n in db.mentors ==> db.mentors[n].cohort in db.cohorts)
  }

  /** Each row refers to rows that exist. */
  ghost predicate ReferencesHold(db: Db) {
    KeysHold(db) && PartnersPlaced(db)
  }

  lemma PlacedAfterwards(db: Db, s: Step)
    requires PartnersPlaced(db)
    ensures s.SaveBrief? ==> (PartnersPlaced(Written(db, s)) <==> s.brief.cohort in db.cohorts)
    ensures s.SaveMentor? ==> (PartnersPlaced(Written(db, s)) <==> s.mentor.cohort in db.cohorts)
    ensures !s.SaveBrief? && !s.SaveMentor? ==> PartnersPlaced(Written(db, s))
  {
    if s.SaveBrief? {
      assert s.id in Written(db, s).briefs && Written(db, s).briefs[s.id] == s.brief;
    } else if s.SaveMentor? {
      assert s.id in Written(db, s).mentors && Written(db, s).mentors[s.id] == s.mentor;
    }
  }

  lemma StepKeepsReferences(db: Db, s: Step, fold: string -> string)
    requires ReferencesHold(db) && Accepted(db, s, fold)
    ensures ReferencesHold(Written(db, s))
  {
    PlacedAfterwards(db, s);
    StepKeepsKeys(db, s, fold);
    hide KeysHold, PartnersPlaced, Written, CohortAccepted, ParticipantAccepted, TeamGroupAccepted, BriefAccepts, TeamHasRoom, GroupsMatch, MentorAccepts, NoOtherTeam, NoOtherClaim;
  }

  /** The writes without a trigger are accepted exactly when the rows refer to rows that exist afterwards;
      removing a membership or a claim always is. */
  lemma PlainVerdict(db: Db, s: Step, fold: string -> string)
    requires ReferencesHold(db) && (s.SaveBrief? || s.SaveMentor? || s.RemoveMember? || s.RemoveClaim?)
    ensures Accepted(db, s, fold) <==> ReferencesHold(Written(db, s))
    ensures s.RemoveMember? || s.RemoveClaim? ==> Accepted(db, s, fold)
  {
    PlacedAfterwards(db, s);
    if Accepted(db, s, fold) {
      StepKeepsReferences(db, s, fold);
    }
    hide KeysHold, PartnersPlaced, Written;
  }

  /** Over every history each row refers to rows that exist. */
  lemma {:induction false} ReferencesAlwaysHold(steps: seq<Step>, fold: string -> string)
    ensures ReferencesHold(After(EMPTY, steps, fold))
  {
    hide Accepted, Written, ReferencesHold;
    if steps == [] {
      NothingRefers();
    } else {
      var n := |steps| - 1;
      ReferencesAlwaysHold(steps[..n], fold);
      if Accepted(After(EMPTY, steps[..n], fold), steps[n], fold) {
        StepKeepsReferences(After(EMPTY, steps[..n], fold), steps[n], fold);
      }
    }
  }

  lemma NothingRefers()
    ensures ReferencesHold(EMPTY)
  {
  }

  ghost predicate NamesHold(db: Db, fold: string -> string) {
    forall id :: id in db.cohorts ==> GroupNamesValid(db.cohorts[id].groups, fold)
  }

  lemma StepKeepsNames(db: Db, s: Step, fold: string -> string)
    requires NamesHold(db, fold) && Accepted(db, s, fold)
    ensures NamesHold(Written(db, s), fold)
  {
    hide GroupNamesValid, ParticipantAccepted, TeamGroupAccepted, BriefAccepts, TeamHasRoom, GroupsMatch, MentorAccepts;
  }

  lemma {:induction false} NamesStayValid(steps: seq<Step>, fold: string -> string)
    ensures NamesHold(After(EMPTY, steps, fold), fold)
  {
    hide Accepted, Written, GroupNamesValid;
    if steps != [] {
      var n := |steps| - 1;
      NamesStayValid(steps[..n], fold);
      if Accepted(After(EMPTY, steps[..n], fold), steps[n], fold) {
        StepKeepsNames(After(EMPTY, steps[..n], fold), steps[n], fold);
      }
    }
  }

  /** So over every history the groups of each cohort are such names. */
  lemma GroupNamesAlwaysValid(steps: seq<Step>, fold: string -> string, id: Id)
    requires id in After(EMPTY, steps, fold).cohorts
    ensures var groups := After(EMPTY, steps, fold).cohorts[id].groups;
      && |groups| <= 100
      && (forall i :: 0 <= i < |groups| ==> 1 <= |groups[i]| <= 100 && groups[i][0] != ' ' && groups[i][|groups[i]| - 1] != ' ')
      && (forall i, j :: 0 <= i < j < |groups| ==> fold(groups[i]) != fold(groups[j]))
  {
    NamesStayValid(steps, fold);
    hide After;
  }

  // ---------------------------------------------------------------- briefs and mentors of a team

  /** A live team that is not disqualified works on an approved brief of its cohort; an active, live
      claim is by an active mentor of the team's cohort. */
  ghost predicate PartnersFit(db: Db) {
    && (forall t :: t in db.teams ==> BriefFits(db, db.teams[t]))
    && (forall c :: c in db.claims ==> MentorFits(db, db.claims[c]))
  }

  predicate BriefFits(db: Db, t: Team) {
    t.brief.Some? && !t.deleted && !t.disqualified ==>
      t.brief.value in db.briefs && db.briefs[t.brief.value].approved && db.briefs[t.brief.value].cohort == t.cohort
  }

  predicate MentorFits(db: Db, c: Claim) {
    c.active && !c.deleted ==>
      && c.mentor in db.mentors && c.team in db.teams
      && db.mentors[c.mentor].active && db.mentors[c.mentor].cohort == db.teams[c.team].cohort
  }

  /** No brief loses its approval or its cohort, no mentor its activity or its cohort, and no team its
      cohort. */
  predicate KeepsPartners(db: Db, s: Step) {
    match s
    case SaveBrief(id, b) => id in db.briefs ==> b.cohort == db.briefs[id].cohort && (db.briefs[id].approved ==> b.approved)
    case SaveMentor(id, m) => id in db.mentors ==> m.cohort == db.mentors[id].cohort && (db.mentors[id].active ==> m.active)
    case SaveTeam(id, t, _, _) => id in db.teams ==> t.cohort == db.teams[id].cohort
    case _ => true
  }

  /** An accepted team that is new, or whose brief is named, has an approved brief of its cohort. */
  lemma AssignedBriefFits(db: Db, s: Step, fold: string -> string)
    requires s.SaveTeam? && Accepted(db, s, fold) && (s.id !in db.teams || s.namesBrief)
    requires s.team.brief.Some? && !s.team.deleted && !s.team.disqualified
    ensures var r := Written(db, s); var t := r.teams[s.id];
      t == s.team && t.brief.value in r.briefs && r.briefs[t.brief.value].approved && r.briefs[t.brief.value].cohort == t.cohort
  {
    BriefVerdict(db, s.id, s.team);
    hide BriefAccepts, AssignedTo;
  }

  /** An accepted active claim is by an active mentor of the team's cohort. */
  lemma ClaimedMentorFits(db: Db, id: Id, c: Claim, fold: string -> string)
    requires Accepted(db, SaveClaim(id, c), fold) && c.active && !c.deleted
    ensures var r := Written(db, SaveClaim(id, c));
      && c.mentor in r.mentors && c.team in r.teams
      && r.mentors[c.mentor].active && r.mentors[c.mentor].cohort == r.teams[c.team].cohort
  {
    ClaimVerdict(db, id, c, fold);
    hide MentorAccepts, ActiveOf;
  }

  lemma StepKeepsBriefs(db: Db, s: Step, fold: string -> string, t: Id)
    requires PartnersFit(db) && Accepted(db, s, fold) && KeepsPartners(db, s) && t in Written(db, s).teams
    ensures BriefFits(Written(db, s), Written(db, s).teams[t])
  {
    if s.SaveTeam? && s.id == t && (t !in db.teams || s.namesBrief) && s.team.brief.Some? && !s.team.deleted && !s.team.disqualified {
      AssignedBriefFits(db, s, fold);
    } else if t in db.teams {
      assert BriefFits(db, db.teams[t]);
    }
    hide BriefAccepts, TeamGroupAccepted, CohortAccepted, MentorAccepts, TeamHasRoom, ParticipantAccepted, MentorFits;
  }

  lemma StepKeepsClaims(db: Db, s: Step, fold: string -> string, c: Id)
    requires PartnersFit(db) && Accepted(db, s, fold) && KeepsPartners(db, s) && c in Written(db, s).claims
    ensures MentorFits(Written(db, s), Written(db, s).claims[c])
  {
    if s.SaveClaim? && s.id == c {
      if s.claim.active && !s.claim.deleted {
        ClaimedMentorFits(db, c, s.claim, fold);
      }
    } else {
      assert MentorFits(db, db.claims[c]);
    }
    hide BriefAccepts, TeamGroupAccepted, CohortAccepted, MentorAccepts, TeamHasRoom, ParticipantAccepted, BriefFits;
  }

  ghost predicate AllKeepPartners(steps: seq<Step>, fold: string -> string) {
    forall i :: 0 <= i < |steps| ==> KeepsPartners(After(EMPTY, steps[..i], fold), steps[i])
  }

  lemma StepKeepsPartners(db: Db, s: Step, fold: string -> string)
    requires PartnersFit(db) && Accepted(db, s, fold) && KeepsPartners(db, s)
    ensures PartnersFit(Written(db, s))
  {
    hide Accepted, KeepsPartners, Written, BriefFits, MentorFits;
    forall t | t in Written(db, s).teams ensures BriefFits(Written(db, s), Written(db, s).teams[t]) {
      StepKeepsBriefs(db, s, fold, t);
    }
    forall c | c in Written(db, s).claims ensures MentorFits(Written(db, s), Written(db, s).claims[c]) {
      StepKeepsClaims(db, s, fold, c);
    }
  }

  lemma NobodyFits()
    ensures PartnersFit(EMPTY)
  {
  }

  lemma {:induction false} PartnersStayFit(steps: seq<Step>, fold: string -> string)
    requires AllKeepPartners(steps, fold)
    ensures PartnersFit(After(EMPTY, steps, fold))
  {
    hide Accepted, KeepsPartners, Written, PartnersFit;
    if steps == [] {
      NobodyFits();
    } else {
      var n := |steps| - 1;
      var rest, s := steps[..n], steps[n];
      assert forall i :: 0 <= i < n ==> rest[..i] == steps[..i] && rest[i] == steps[i];
      PartnersStayFit(rest, fold);
      if Accepted(After(EMPTY, rest, fold), s, fold) {
        StepKeepsPartners(After(EMPTY, rest, fold), s, fold);
      }
    }
  }

  /** Over every history in which no brief loses approval or cohort, no mentor activity or cohort, and no
      team its cohort: every live team that is not disqualified works on an approved brief of its
      cohort, and every active, live claim is by an active mentor of the team's cohort. */
  lemma PartnersAlwaysFit(steps: seq<Step>, fold: string -> string)
    requires AllKeepPartners(steps, fold)
    ensures var db := After(EMPTY, steps, fold);
      && (forall t :: t in db.teams && db.teams[t].brief.Some? && !db.teams[t].deleted && !db.teams[t].disqualified ==>
            && db.teams[t].brief.value in db.briefs && db.briefs[db.teams[t].brief.value].approved
            && db.briefs[db.teams[t].brief.value].cohort == db.teams[t].cohort)
      && (forall c :: c in db.claims && db.claims[c].active && !db.claims[c].deleted ==>
            && db.claims[c].mentor in db.mentors && db.claims[c].team in db.teams && db.mentors[db.claims[c].mentor].active
            && db.mentors[db.claims[c].mentor].cohort == db.teams[db.claims[c].team].cohort)
  {
    PartnersStayFit(steps, fold);
    var db := After(EMPTY, steps, fold);
    hide After;
    assert forall t :: t in db.teams ==> BriefFits(db, db.teams[t]);
    assert forall c :: c in db.claims ==> MentorFits(db, db.claims[c]);
  }
}
