/**
 * The part of Red's modlog library that the ModLog cog drives: who a user
 * and a channel are, what a moderation case records, and how a case is
 * edited. The library itself stores cases per guild; here a guild's cases
 * are a map from case number to Case (see ModLogCog.Config), and an edit
 * is a patch that overwrites exactly the keys it carries.
 */
module ModlogLibrary {

  datatype Option<+T> = None | Some(value: T)

  /** A Discord user, compared by identity only. */
  datatype User = User(id: nat)

  /** A guild text channel, compared by identity only. */
  datatype Channel = Channel(id: nat)

  /** The creation time of a command message; the model never looks inside it. */
  datatype Timestamp = Timestamp(value: int)

  /**
   * One moderation case. The cog reads `moderator` and edits `moderator`,
   * `reason`, `amendedBy` and `modifiedAt`; the action type and the target
   * user are set when the case is created and never edited here.
   */
  datatype Case = Case(
    actionType: string,
    user: User,
    moderator: Option<User>,
    reason: string,
    amendedBy: Option<User>,
    modifiedAt: Option<Timestamp>)

  /**
   * The dictionary handed to `Case.edit`: a key that is present (`Some`)
   * is overwritten with its value, a key that is absent (`None`) is left
   * alone. No patch built by the cog ever clears a field.
   */
  datatype CasePatch = CasePatch(
    moderator: Option<User>,
    reason: Option<string>,
    amendedBy: Option<User>,
    modifiedAt: Option<Timestamp>)

  const NoChanges: CasePatch := CasePatch(None, None, None, None)

  /** Applies a patch to a case: exactly the keys the patch carries change. */
  function Edit(c: Case, patch: CasePatch): (r: Case)
    ensures r.actionType == c.actionType && r.user == c.user
    ensures r.moderator == (if patch.moderator.Some? then patch.moderator else c.moderator)
    ensures r.reason == (if patch.reason.Some? then patch.reason.value else c.reason)
    ensures r.amendedBy == (if patch.amendedBy.Some? then patch.amendedBy else c.amendedBy)
    ensures r.modifiedAt == (if patch.modifiedAt.Some? then patch.modifiedAt else c.modifiedAt)
  {
    var c1 := if patch.moderator.Some? then c.(moderator := patch.moderator) else c;
    var c2 := if patch.reason.Some? then c1.(reason := patch.reason.value) else c1;
    var c3 := if patch.amendedBy.Some? then c2.(amendedBy := patch.amendedBy) else c2;
    if patch.modifiedAt.Some? then c3.(modifiedAt := patch.modifiedAt) else c3
  }
}
