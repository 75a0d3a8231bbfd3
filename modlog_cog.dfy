/**
 * The ModLog cog: the `modlogset` subcommands (`modlog`, `cases`,
 * `resetcases`) and the `case`, `casemod` and `reason` commands, each a
 * guarded transition of one guild's modlog state.
 *
 * Every command is given twice: as a function `Apply…` from the state
 * before to an Outcome (the state after and the replies sent, in order),
 * and as a method of class ModLog that performs it in place and is proved
 * to agree with that function. Inputs the cog asks the outside world for
 * (whether the bot may send in a channel, whether the author is a mod,
 * the guild owner, the message time) are parameters.
 */
module ModLogCog {
  import opened ModlogLibrary

  /** One guild's modlog state as the cog sees it through the library. */
  datatype Config = Config(
    channel: Option<Channel>,        // the configured mod log channel
    caseTypes: seq<string>,          // registered case types, in registration order
    enabled: map<string, bool>,      // case type name -> case creation enabled
    cases: map<int, Case>)           // case number -> case

  /** Every registered case type has exactly one flag and is listed once. */
  predicate WellFormed(s: Config) {
    && (forall name :: name in s.enabled ==> name in s.caseTypes)
    && (forall name :: name in s.caseTypes ==> name in s.enabled)
    && (forall i, j :: 0 <= i < j < |s.caseTypes| ==> s.caseTypes[i] != s.caseTypes[j])
  }

  /** One line of the `modlogset cases` listing. */
  datatype Setting = Setting(name: string, enabled: bool)

  /** A message the cog sends back, one per `send` or `send_help`. */
  datatype Reply =
    | Help
    | ChannelSet(channel: Channel)
    | CannotSend(channel: Channel)
    | Deactivated
    | SettingsListing(settings: seq<Setting>)
    | NotRegistered
    | Toggled(action: string, nowEnabled: bool)
    | CasesWereReset
    | CaseEmbed(number: int, shown: Case)
    | NoSuchCase
    | ModeratorAlreadySet
    | ModeratorSet(moderator: User, number: int)
    | NoModeratorWarning
    | NotAuthorized
    | ReasonUpdated

  datatype Outcome = Outcome(state: Config, replies: seq<Reply>)

  /** The listing of the given case types with their flags, in order. */
  function Listing(names: seq<string>, enabled: map<string, bool>): (r: seq<Setting>)
    requires forall name :: name in names ==> name in enabled
    ensures |r| == |names|
  {
    if names == [] then []
    else
      var last := names[|names| - 1];
      Listing(names[..|names| - 1], enabled) + [Setting(last, enabled[last])]
  }

  /** Who may change a case's reason: the guild owner, the case's moderator, or a mod. */
  predicate MayEditReason(author: User, owner: User, c: Case, authorIsMod: bool)
    ensures c.moderator == Some(author) ==> MayEditReason(author, owner, c, authorIsMod)
    ensures c.moderator == None ==> (MayEditReason(author, owner, c, authorIsMod) <==> author == owner || authorIsMod)
    ensures author != owner && c.moderator != Some(author) && !authorIsMod ==> !MayEditReason(author, owner, c, authorIsMod)
  {
    author == owner || c.moderator == Some(author) || authorIsMod
  }

  /**
   * The patch `reason` hands to the library: the new reason and the message
   * time always, and the author as amender when the author is not the
   * case's moderator (which includes a case with no moderator).
   */
  function ReasonPatch(c: Case, author: User, reason: string, at: Timestamp): (p: CasePatch)
    ensures p.reason == Some(reason) && p.modifiedAt == Some(at)
    ensures p.moderator == None
    ensures p.amendedBy.Some? <==> c.moderator != Some(author)
    ensures p.amendedBy.Some? ==> p.amendedBy.value == author
  {
    var toModify := NoChanges.(reason := Some(reason));
    var toModify := if c.moderator != Some(author) then toModify.(amendedBy := Some(author)) else toModify;
    toModify.(modifiedAt := Some(at))
  }

  /** `modlogset modlog [channel]`: set the log channel, or deactivate the log. */
  function ApplyModlog(s: Config, channel: Option<Channel>, botCanSend: bool): (o: Outcome)
    ensures o.state.caseTypes == s.caseTypes && o.state.enabled == s.enabled && o.state.cases == s.cases
    ensures o.state.channel == s.channel || o.state.channel == channel
  {
    match channel
    case Some(c) =>
      if botCanSend then Outcome(s.(channel := channel), [ChannelSet(c)])
      else Outcome(s, [CannotSend(c)])
    case None =>
      if s.channel == None then Outcome(s, [Help])
      else Outcome(s.(channel := None), [Deactivated])
  }

  /** `modlogset cases [action]`: list every case type, or toggle one. */
  function ApplyCases(s: Config, action: Option<string>): (o: Outcome)
    requires WellFormed(s)
    ensures WellFormed(o.state)
    ensures o.state.channel == s.channel && o.state.caseTypes == s.caseTypes && o.state.cases == s.cases
    ensures o.state.enabled.Keys == s.enabled.Keys
    ensures forall name :: name in s.enabled && action != Some(name) ==> o.state.enabled[name] == s.enabled[name]
  {
    match action
    case None => Outcome(s, [Help, SettingsListing(Listing(s.caseTypes, s.enabled))])
    case Some(name) =>
      if name !in s.enabled then Outcome(s, [NotRegistered])
      else
        var nowEnabled := !s.enabled[name];
        Outcome(s.(enabled := s.enabled[name := nowEnabled]), [Toggled(name, nowEnabled)])
  }

  /** `modlogset resetcases`: the library drops every case of the guild. */
  function ApplyResetCases(s: Config): (o: Outcome)
    ensures o.state.cases == map[]
    ensures o.state.channel == s.channel && o.state.caseTypes == s.caseTypes && o.state.enabled == s.enabled
  {
    Outcome(s.(cases := map[]), [CasesWereReset])
  }

  /** `case <number>`: show a case; nothing changes. */
  function ApplyCase(s: Config, number: int): (o: Outcome)
    ensures o.state == s
    ensures |o.replies| == 1
    ensures o.replies[0].CaseEmbed? <==> number in s.cases
    ensures o.replies[0].CaseEmbed? ==> o.replies[0].number == number && o.replies[0].shown == s.cases[number]
  {
    if number in s.cases then Outcome(s, [CaseEmbed(number, s.cases[number])])
    else Outcome(s, [NoSuchCase])
  }

  /** `casemod <case> <moderator>`: name the moderator of a case that has none. */
  function ApplyCaseMod(s: Config, number: int, moderator: User): (o: Outcome)
    ensures o.state.channel == s.channel && o.state.caseTypes == s.caseTypes && o.state.enabled == s.enabled
    ensures o.state.cases.Keys == s.cases.Keys
    ensures forall n :: n in s.cases && n != number ==> o.state.cases[n] == s.cases[n]
    ensures number in s.cases && s.cases[number].moderator.Some? ==> o.state.cases[number] == s.cases[number]
  {
    if number !in s.cases then Outcome(s, [NoSuchCase])
    else
      var before := s.cases[number];
      if before.moderator != None then Outcome(s, [ModeratorAlreadySet])
      else
        var toModify := NoChanges.(moderator := Some(moderator));
        Outcome(s.(cases := s.cases[number := Edit(before, toModify)]), [ModeratorSet(moderator, number)])
  }

  /** `reason <case> <text>`: change a case's reason, if the author may. */
  function ApplyReason(s: Config, number: int, reason: string, author: User, owner: User,
                       authorIsMod: bool, at: Timestamp): (o: Outcome)
    ensures o.state.channel == s.channel && o.state.caseTypes == s.caseTypes && o.state.enabled == s.enabled
    ensures o.state.cases.Keys == s.cases.Keys
    ensures forall n :: n in s.cases && n != number ==> o.state.cases[n] == s.cases[n]
    ensures number in s.cases ==> o.state.cases[number].moderator == s.cases[number].moderator
  {
    if reason == "" then Outcome(s, [Help])
    else if number !in s.cases then Outcome(s, [NoSuchCase])
    else
      var before := s.cases[number];
      var warning := if before.moderator == None then [NoModeratorWarning] else [];
      if !MayEditReason(author, owner, before, authorIsMod) then Outcome(s, warning + [NotAuthorized])
      else
        var after := Edit(before, ReasonPatch(before, author, reason, at));
        Outcome(s.(cases := s.cases[number := after]), warning + [ReasonUpdated])
  }

  /** The commands of the cog, with the inputs each one takes from the outside world. */
  datatype Command =
    | SetChannel(channel: Option<Channel>, botCanSend: bool)
    | SetCases(action: Option<string>)
    | ResetAllCases
    | ShowCase(number: int)
    | AssignModerator(number: int, moderator: User)
    | AmendReason(number: int, reason: string, author: User, owner: User, authorIsMod: bool, at: Timestamp)

  /**
   * What a command may do to a case store: it never adds a case number,
   * never changes a case's action type or target, and never replaces a
   * moderator once one is set; the registered case types stay the same.
   */
  predicate Kept(before: Case, after: Case) {
    && after.actionType == before.actionType
    && after.user == before.user
    && (before.moderator.Some? ==> after.moderator == before.moderator)
  }

  predicate Evolves(a: Config, b: Config) {
    && b.caseTypes == a.caseTypes
    && b.enabled.Keys == a.enabled.Keys
    && b.cases.Keys <= a.cases.Keys
    && forall n :: n in b.cases ==> Kept(a.cases[n], b.cases[n])
  }

  /** Runs one command. */
  function Apply(s: Config, cmd: Command): (o: Outcome)
    requires WellFormed(s)
    ensures WellFormed(o.state)
    ensures Evolves(s, o.state)
  {
    match cmd
    case SetChannel(channel, botCanSend) => ApplyModlog(s, channel, botCanSend)
    case SetCases(action) => ApplyCases(s, action)
    case ResetAllCases => ApplyResetCases(s)
    case ShowCase(number) => ApplyCase(s, number)
    case AssignModerator(number, moderator) => ApplyCaseMod(s, number, moderator)
    case AmendReason(number, reason, author, owner, authorIsMod, at) =>
      ApplyReason(s, number, reason, author, owner, authorIsMod, at)
  }

  /** Runs commands one after another, each to completion, and gives the final state. */
  function Run(s: Config, cmds: seq<Command>): (r: Config)
    requires WellFormed(s)
    ensures WellFormed(r)
    decreases |cmds|
  {
    if cmds == [] then s else Run(Apply(s, cmds[0]).state, cmds[1..])
  }

  /**
   * One guild's modlog state, held by the library and changed in place by
   * the cog's commands. Each handler says what it replies and what the new
   * state is, as the matching `Apply…` function of the old state.
   */
  class ModLog {
    var channel: Option<Channel>
    var caseTypes: seq<string>
    var enabled: map<string, bool>
    var cases: map<int, Case>

    function State(): Config
      reads this
    {
      Config(channel, caseTypes, enabled, cases)
    }

    predicate Valid()
      reads this
    {
      WellFormed(State())
    }

    constructor (initial: Config)
      requires WellFormed(initial)
      ensures Valid() && State() == initial
    {
      channel := initial.channel;
      caseTypes := initial.caseTypes;
      enabled := initial.enabled;
      cases := initial.cases;
    }

    /** The body of the `modlogset cases` listing, built one case type at a time. */
    method CurrentSettings() returns (settings: seq<Setting>)
      requires Valid()
      ensures settings == Listing(caseTypes, enabled)
    {
      settings := [];
      var i := 0;
      while i < |caseTypes|
        invariant 0 <= i <= |caseTypes|
        invariant forall name :: name in caseTypes[..i] ==> name in enabled
        invariant settings == Listing(caseTypes[..i], enabled)
      {
        var name := caseTypes[i];
        assert caseTypes[..i + 1][..i] == caseTypes[..i];
        settings := settings + [Setting(name, enabled[name])];
        i := i + 1;
      }
      assert caseTypes[..i] == caseTypes;
    }

    method Modlog(newChannel: Option<Channel>, botCanSend: bool) returns (replies: seq<Reply>)
      requires Valid()
      modifies this
      ensures Valid()
      ensures Outcome(State(), replies) == ApplyModlog(old(State()), newChannel, botCanSend)
    {
      match newChannel
      case Some(c) =>
        if botCanSend {
          channel := newChannel;
          replies := [ChannelSet(c)];
        } else {
          replies := [CannotSend(c)];
        }
      case None =>
        if channel == None {
          // get_modlog_channel fails: there is nothing to deactivate
          replies := [Help];
        } else {
          channel := None;
          replies := [Deactivated];
        }
    }

    method SetCases(action: Option<string>) returns (replies: seq<Reply>)
      requires Valid()
      modifies this
      ensures Valid()
      ensures Outcome(State(), replies) == ApplyCases(old(State()), action)
    {
      if action == None {
        var settings := CurrentSettings();
        replies := [Help, SettingsListing(settings)];
        return;
      }
      var name := action.value;
      if name !in enabled {
        replies := [NotRegistered];
      } else {
        var wasEnabled := enabled[name];
        enabled := enabled[name := !wasEnabled];
        replies := [Toggled(name, !wasEnabled)];
      }
    }

    method ResetCases() returns (replies: seq<Reply>)
      requires Valid()
      modifies this
      ensures Valid()
      ensures Outcome(State(), replies) == ApplyResetCases(old(State()))
    {
      cases := map[];
      replies := [CasesWereReset];
    }

    method ShowCase(number: int) returns (replies: seq<Reply>)
      ensures Outcome(State(), replies) == ApplyCase(State(), number)
    {
      if number !in cases {
        replies := [NoSuchCase];
        return;
      }
      replies := [CaseEmbed(number, cases[number])];
    }

    method CaseMod(number: int, moderator: User) returns (replies: seq<Reply>)
      requires Valid()
      modifies this
      ensures Valid()
      ensures Outcome(State(), replies) == ApplyCaseMod(old(State()), number, moderator)
    {
      if number !in cases {
        replies := [NoSuchCase];
        return;
      }
      var before := cases[number];
      if before.moderator != None {
        replies := [ModeratorAlreadySet];
        return;
      }
      var toModify := NoChanges.(moderator := Some(moderator));
      cases := cases[number := Edit(before, toModify)];
      replies := [ModeratorSet(moderator, number)];
    }

    method Reason(number: int, reason: string, author: User, owner: User,
                  authorIsMod: bool, at: Timestamp) returns (replies: seq<Reply>)
      requires Valid()
      modifies this
      ensures Valid()
      ensures Outcome(State(), replies) == ApplyReason(old(State()), number, reason, author, owner, authorIsMod, at)
    {
      if reason == "" {
        replies := [Help];
        return;
      }
      if number !in cases {
        replies := [NoSuchCase];
        return;
      }
      var before := cases[number];
      replies := [];
      if before.moderator == None {
        replies := replies + [NoModeratorWarning];
      }
      var isGuildOwner := author == owner;
      var isCaseAuthor := before.moderator == Some(author);
      if !(isGuildOwner || isCaseAuthor || authorIsMod) {
        replies := replies + [NotAuthorized];
        return;
      }
      cases := cases[number := Edit(before, ReasonPatch(before, author, reason, at))];
      replies := replies + [ReasonUpdated];
    }
  }
}
