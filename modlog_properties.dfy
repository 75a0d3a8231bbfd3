/**
 * What the ModLog cog's commands promise, stated over the `Apply…`
 * functions of ModLogCog (and so, through the handlers' postconditions,
 * over the class ModLog as well).
 */
module ModLogProperties {
  import opened ModlogLibrary
  import opened ModLogCog

  // ---------------------------------------------------------------------
  // modlogset modlog [channel]

  /** A channel is stored only when the bot may send there; otherwise nothing changes. */
  lemma SetChannelNeedsPermission(s: Config, c: Channel, botCanSend: bool)
    ensures var o := ApplyModlog(s, Some(c), botCanSend);
      && (botCanSend ==> o.state == s.(channel := Some(c)) && o.replies == [ChannelSet(c)])
      && (!botCanSend ==> o.state == s && o.replies == [CannotSend(c)])
  {
  }

  /**
   * With no channel argument: help and no change when no log channel is
   * configured, otherwise the log is deactivated and nothing else changes.
   */
  lemma ClearChannel(s: Config, botCanSend: bool)
    ensures var o := ApplyModlog(s, None, botCanSend);
      && (s.channel == None ==> o.state == s && o.replies == [Help])
      && (s.channel != None ==> o.state == s.(channel := None) && o.replies == [Deactivated])
  {
  }

  // ---------------------------------------------------------------------
  // modlogset cases [action]

  /** The i-th line of a listing is the i-th case type with its flag. */
  lemma {:induction false} ListingAt(names: seq<string>, enabled: map<string, bool>, i: int)
    requires forall name :: name in names ==> name in enabled
    requires 0 <= i < |names|
    ensures Listing(names, enabled)[i] == Setting(names[i], enabled[names[i]])
  {
    var prefix := names[..|names| - 1];
    assert forall name :: name in prefix ==> name in names;
    if i < |names| - 1 {
      ListingAt(prefix, enabled, i);
    }
  }

  /**
   * Without an action the cog sends help, then every registered case type
   * with its flag in registration order, and changes nothing.
   */
  lemma ListingShowsEveryType(s: Config)
    requires WellFormed(s)
    ensures ApplyCases(s, None).state == s
    ensures |ApplyCases(s, None).replies| == 2
    ensures ApplyCases(s, None).replies[0] == Help
    ensures var listing := ApplyCases(s, None).replies[1].settings;
      && |listing| == |s.caseTypes|
      && forall i :: 0 <= i < |s.caseTypes| ==> listing[i] == Setting(s.caseTypes[i], s.enabled[s.caseTypes[i]])
  {
    forall i | 0 <= i < |s.caseTypes|
      ensures Listing(s.caseTypes, s.enabled)[i] == Setting(s.caseTypes[i], s.enabled[s.caseTypes[i]])
    {
      ListingAt(s.caseTypes, s.enabled, i);
    }
  }

  /** Naming an action that is not registered changes nothing. */
  lemma UnregisteredActionChangesNothing(s: Config, action: string)
    requires WellFormed(s)
    requires action !in s.enabled
    ensures ApplyCases(s, Some(action)) == Outcome(s, [NotRegistered])
  {
  }

  /**
   * Naming a registered action negates its flag, reports the new value,
   * and leaves every other flag and the rest of the state alone.
   */
  lemma ToggleNegates(s: Config, action: string)
    requires WellFormed(s)
    requires action in s.enabled
    ensures var o := ApplyCases(s, Some(action));
      && o.state == s.(enabled := s.enabled[action := !s.enabled[action]])
      && o.replies == [Toggled(action, !s.enabled[action])]
  {
  }

  /** Toggling the same action twice restores the state it started from. */
  lemma ToggleTwiceRestores(s: Config, action: string)
    requires WellFormed(s)
    ensures ApplyCases(ApplyCases(s, Some(action)).state, Some(action)).state == s
  {
  }

  // ---------------------------------------------------------------------
  // modlogset resetcases

  /** Resetting leaves no case behind and touches neither the channel nor the case types. */
  lemma ResetClearsCasesOnly(s: Config)
    ensures ApplyResetCases(s) == Outcome(s.(cases := map[]), [CasesWereReset])
  {
  }

  // ---------------------------------------------------------------------
  // case <number>

  /** Showing a case never changes the state, found or not. */
  lemma ShowCaseChangesNothing(s: Config, number: int)
    ensures ApplyCase(s, number).state == s
    ensures number !in s.cases ==> ApplyCase(s, number).replies == [NoSuchCase]
  {
  }

  // ---------------------------------------------------------------------
  // casemod <case> <moderator>

  /** A missing case, or a case that already has a moderator, is left as it is. */
  lemma CaseModNeverOverwrites(s: Config, number: int, moderator: User)
    requires number !in s.cases || s.cases[number].moderator != None
    ensures ApplyCaseMod(s, number, moderator).state == s
    ensures ApplyCaseMod(s, number, moderator).replies ==
      (if number !in s.cases then [NoSuchCase] else [ModeratorAlreadySet])
  {
  }

  /** Otherwise only that case's moderator changes, to the given user. */
  lemma CaseModSetsOnlyModerator(s: Config, number: int, moderator: User)
    requires number in s.cases && s.cases[number].moderator == None
    ensures var o := ApplyCaseMod(s, number, moderator);
      && o.state == s.(cases := s.cases[number := s.cases[number].(moderator := Some(moderator))])
      && o.replies == [ModeratorSet(moderator, number)]
  {
  }

  // ---------------------------------------------------------------------
  // reason <case> <text>

  /** An empty reason, or a case number that does not exist, leaves everything unchanged. */
  lemma ReasonRejectsEmptyOrMissing(s: Config, number: int, reason: string, author: User,
                                    owner: User, authorIsMod: bool, at: Timestamp)
    requires reason == "" || number !in s.cases
    ensures var o := ApplyReason(s, number, reason, author, owner, authorIsMod, at);
      && o.state == s
      && o.replies == (if reason == "" then [Help] else [NoSuchCase])
  {
  }

  /**
   * For a non-empty reason on an existing case, the edit is made exactly
   * when the author is the guild owner, the case's moderator or a mod; an
   * unauthorized call leaves the state unchanged. A case with no moderator
   * draws a warning first, whatever happens next.
   */
  lemma ReasonEditIffAuthorized(s: Config, number: int, reason: string, author: User,
                                owner: User, authorIsMod: bool, at: Timestamp)
    requires reason != "" && number in s.cases
    ensures var o := ApplyReason(s, number, reason, author, owner, authorIsMod, at);
      var before := s.cases[number];
      var authorized := author == owner || before.moderator == Some(author) || authorIsMod;
      var warning := if before.moderator == None then [NoModeratorWarning] else [];
      && (authorized ==> o.replies == warning + [ReasonUpdated])
      && (authorized ==> o.state.cases[number].reason == reason && o.state.cases[number].modifiedAt == Some(at))
      && (!authorized ==> o.replies == warning + [NotAuthorized] && o.state == s)
      && (ReasonUpdated in o.replies <==> authorized)
  {
  }

  /**
   * A case without a moderator may still be amended by the guild owner or
   * a mod: the warning is sent, the reason changes, and the case still has
   * no moderator afterwards.
   */
  lemma MissingModeratorOnlyWarns(s: Config, number: int, reason: string, author: User,
                                  owner: User, authorIsMod: bool, at: Timestamp)
    requires reason != "" && number in s.cases && s.cases[number].moderator == None
    requires author == owner || authorIsMod
    ensures var o := ApplyReason(s, number, reason, author, owner, authorIsMod, at);
      && o.replies == [NoModeratorWarning, ReasonUpdated]
      && o.state.cases[number].reason == reason
      && o.state.cases[number].moderator == None
  {
  }

  /**
   * A successful edit sets the reason and the modification time, records
   * the author as amender exactly when the author is not the case's
   * moderator, keeps the moderator, and changes no other case.
   */
  lemma ReasonEditFields(s: Config, number: int, reason: string, author: User,
                         owner: User, authorIsMod: bool, at: Timestamp)
    requires reason != "" && number in s.cases
    requires MayEditReason(author, owner, s.cases[number], authorIsMod)
    ensures var o := ApplyReason(s, number, reason, author, owner, authorIsMod, at);
      var before := s.cases[number];
      var after := o.state.cases[number];
      && after.reason == reason
      && after.modifiedAt == Some(at)
      && after.amendedBy == (if before.moderator != Some(author) then Some(author) else before.amendedBy)
      && after.moderator == before.moderator
      && after.actionType == before.actionType && after.user == before.user
      && o.state == s.(cases := s.cases[number := after])
  {
  }

  // ---------------------------------------------------------------------
  // Any sequence of commands

  lemma EvolvesTransitive(a: Config, b: Config, c: Config)
    requires Evolves(a, b) && Evolves(b, c)
    ensures Evolves(a, c)
  {
  }

  /**
   * However commands follow one another, the cog never creates a case,
   * never changes a case's action type or target, never replaces a
   * moderator once set, and never registers or drops a case type.
   */
  lemma {:induction false} RunEvolves(s: Config, cmds: seq<Command>)
    requires WellFormed(s)
    ensures Evolves(s, Run(s, cmds))
    decreases |cmds|
  {
    if cmds != [] {
      var next := Apply(s, cmds[0]).state;
      RunEvolves(next, cmds[1..]);
      EvolvesTransitive(s, next, Run(next, cmds[1..]));
    }
  }

  /** In particular, a moderator assigned to a case stays its moderator for as long as the case exists. */
  lemma ModeratorIsPermanent(s: Config, cmds: seq<Command>, number: int)
    requires WellFormed(s)
    requires number in s.cases && s.cases[number].moderator != None
    requires number in Run(s, cmds).cases
    ensures Run(s, cmds).cases[number].moderator == s.cases[number].moderator
  {
    RunEvolves(s, cmds);
  }
}
