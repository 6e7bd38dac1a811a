/**
 * The generic transition validator: one configuration per entity kind (its transition
 * table and optional terminal, reason-required and override-allowed lists) and a pure
 * decision `Validate(from, to, hasOverridePermission)`.
 */
module StateMachine {
  import opened Wrappers
  import opened Text

  /** `StateMachineConfig`; `show` renders a state the way the source's string tags read. */
  datatype Config<!S(==)> = Config(
    name: string,
    transitions: map<S, seq<S>>,
    overrideAllowed: Option<seq<S>>,
    requiresReason: Option<seq<S>>,
    terminalStates: Option<seq<S>>,
    show: S -> string)

  /** `TransitionValidation`. */
  datatype Validation<S> = Validation(
    valid: bool,
    from: S,
    to: S,
    reason: Option<string>,
    allowedTransitions: seq<S>,
    isOverrideRequired: bool,
    reasonRequired: bool)

  /** `list?.includes(x) ?? false`. */
  predicate Includes<S(==)>(list: Option<seq<S>>, x: S) {
    list.Some? && x in list.value
  }

  /** `getAllowedTransitions`: the table row for `from`, or `[]` when there is none. */
  function AllowedTransitions<S(==)>(c: Config<S>, from: S): (r: seq<S>)
    ensures from in c.transitions ==> r == c.transitions[from]
    ensures from !in c.transitions ==> r == []
  {
    if from in c.transitions then c.transitions[from] else []
  }

  /** `isTerminal`. */
  predicate IsTerminal<S(==)>(c: Config<S>, s: S) {
    Includes(c.terminalStates, s)
  }

  /** `allowed.join(", ") || "none"`. */
  function AllowedText<S(==)>(c: Config<S>, allowed: seq<S>): string {
    var joined := Join(seq(|allowed|, i requires 0 <= i < |allowed| => c.show(allowed[i])), ", ");
    if joined == "" then "none" else joined
  }

  function TerminalMessage<S(==)>(c: Config<S>, from: S): string {
    c.show(from) + " is a terminal state in " + c.name + ". Admin override required."
  }

  function InvalidMessage<S(==)>(c: Config<S>, from: S, to: S): string {
    "Invalid " + c.name + " transition: " + c.show(from) + " \U{2192} " + c.show(to)
      + ". Allowed: " + AllowedText(c, AllowedTransitions(c, from))
  }

  /** `validate(from, to, hasOverridePermission)`. */
  function Validate<S(==)>(c: Config<S>, from: S, to: S, hasOverride: bool): (r: Validation<S>)
    ensures r.from == from && r.to == to
    ensures r.allowedTransitions == AllowedTransitions(c, from)
  {
    var allowed := AllowedTransitions(c, from);
    var reasonRequired := Includes(c.requiresReason, to);
    if to in allowed then
      Validation(true, from, to, None, allowed, false, reasonRequired)
    else if hasOverride && Includes(c.overrideAllowed, to) then
      Validation(true, from, to, None, allowed, true, true)
    else
      var msg := if IsTerminal(c, from) then TerminalMessage(c, from) else InvalidMessage(c, from, to);
      Validation(false, from, to, Some(msg), allowed, false, false)
  }

  // ---- The three outcome branches, in priority order ----

  /** A direct edge is valid, never needs the override and follows the normal reason policy,
      whatever the override flag says. */
  lemma DirectEdgeWins<S>(c: Config<S>, from: S, to: S, hasOverride: bool)
    requires to in AllowedTransitions(c, from)
    ensures var r := Validate(c, from, to, hasOverride);
      r.valid && !r.isOverrideRequired && r.reason == None
      && (r.reasonRequired <==> Includes(c.requiresReason, to))
  {
  }

  /** Override law: off the graph, the override flag reaches exactly the override-allowed
      targets, and such a transition always needs a reason. */
  lemma OverrideLaw<S>(c: Config<S>, from: S, to: S)
    requires to !in AllowedTransitions(c, from)
    ensures var r := Validate(c, from, to, true);
      (r.valid <==> Includes(c.overrideAllowed, to))
      && (r.valid ==> r.isOverrideRequired && r.reasonRequired && r.reason == None)
  {
  }

  /** Validity is exactly: a direct edge, or the override flag with an override-allowed target. */
  lemma ValidIff<S>(c: Config<S>, from: S, to: S, hasOverride: bool)
    ensures Validate(c, from, to, hasOverride).valid
      <==> to in AllowedTransitions(c, from) || (hasOverride && Includes(c.overrideAllowed, to))
  {
  }

  /** A configuration without an override list never accepts a non-edge. */
  lemma NoOverrideListNoFabrication<S>(c: Config<S>, from: S, to: S, hasOverride: bool)
    requires c.overrideAllowed == None
    ensures Validate(c, from, to, hasOverride).valid <==> to in AllowedTransitions(c, from)
  {
  }

  /** Every rejection carries a message and requires neither a reason nor an override; the
      message is the terminal text from a terminal state and the invalid-edge text otherwise. */
  lemma RejectionShape<S>(c: Config<S>, from: S, to: S, hasOverride: bool)
    requires !Validate(c, from, to, hasOverride).valid
    ensures var r := Validate(c, from, to, hasOverride);
      !r.reasonRequired && !r.isOverrideRequired
      && (IsTerminal(c, from) ==> r.reason == Some(TerminalMessage(c, from)))
      && (!IsTerminal(c, from) ==> r.reason == Some(InvalidMessage(c, from, to)))
  {
  }

  // ---- Well-formed configurations ----

  /** A state tag made of upper-case ASCII letters and underscores, like every tag in the source. */
  predicate IsTag(s: string) {
    |s| >= 1 && forall i :: 0 <= i < |s| ==> ('A' <= s[i] <= 'Z') || s[i] == '_'
  }

  ghost predicate TagsOnly<S(!new)>(c: Config<S>) {
    forall s :: IsTag(c.show(s))
  }

  /** With tag-shaped state names the two rejection texts never coincide: their second characters
      are a tag letter or a space on one side and the 'n' of "Invalid" on the other. */
  lemma MessagesDiffer<S(!new)>(c: Config<S>, from: S, to: S)
    requires TagsOnly(c)
    ensures TerminalMessage(c, from) != InvalidMessage(c, from, to)
  {
    var t, m := TerminalMessage(c, from), InvalidMessage(c, from, to);
    var f := c.show(from);
    assert IsTag(f);
    assert m[1] == 'n';
    if |f| >= 2 {
      assert t[1] == f[1];
    } else {
      assert t[1] == ' ';
    }
  }

  /** A rejection's message is the terminal text if and only if `from` is terminal. */
  lemma TerminalMessageIff<S(!new)>(c: Config<S>, from: S, to: S, hasOverride: bool)
    requires TagsOnly(c)
    requires !Validate(c, from, to, hasOverride).valid
    ensures Validate(c, from, to, hasOverride).reason == Some(TerminalMessage(c, from))
      <==> IsTerminal(c, from)
  {
    if !IsTerminal(c, from) {
      MessagesDiffer(c, from, to);
    }
  }

  /** Every state has a row, every edge target has a row, and each terminal state's row is empty. */
  ghost predicate WellFormed<S(!new)>(c: Config<S>) {
    && (forall s :: s in c.transitions)
    && (forall s, t :: s in c.transitions && t in c.transitions[s] ==> t in c.transitions)
    && (forall s :: IsTerminal(c, s) ==> AllowedTransitions(c, s) == [])
  }

  /** From a terminal state of a well-formed configuration nothing is valid without the override,
      and with it only override-allowed targets are. */
  lemma TerminalHasNoExits<S(!new)>(c: Config<S>, s: S, t: S, hasOverride: bool)
    requires WellFormed(c) && IsTerminal(c, s)
    ensures Validate(c, s, t, hasOverride).valid <==> hasOverride && Includes(c.overrideAllowed, t)
    ensures TagsOnly(c) && !hasOverride ==> Validate(c, s, t, hasOverride).reason == Some(TerminalMessage(c, s))
  {
    assert AllowedTransitions(c, s) == [];
  }
}
