/**
 * Sequences of the notifications a controller receives over its lifetime:
 * window-state changes, corner-widget assignments and window messages. The
 * lemmas here say what holds after any such sequence.
 */
module Runs {
  import opened WinTypes
  import opened HitTest
  import opened Chrome

  datatype Event =
    | StateChanged(state: WindowStates, style: StyleMetrics)
    | CornerWidgetSet(w: Option<Widget>, sizeHintHeight: int)
    | Message(msg: Msg, env: Env)

  /** The event does not make the code follow a null corner-widget pointer. */
  predicate EventSafe(s: ChromeState, ev: Event) {
    match ev
    case StateChanged(_, _) => true
    case CornerWidgetSet(w, _) => s.compositionEnabled ==> w.Some?
    case Message(msg, e) => HitTestSafe(s, msg, e)
  }

  /** The state after one event; messages only read the state. */
  function Apply(s: ChromeState, ev: Event): (r: ChromeState)
    requires EventSafe(s, ev)
    ensures r.compositionEnabled == s.compositionEnabled
    ensures ChromeInvariant(s) ==> ChromeInvariant(r)
    ensures ev.Message? ==> r == s
    ensures !ev.StateChanged? ==>
              r.margins == s.margins &&
              r.geometry.windowFrameWidth == s.geometry.windowFrameWidth &&
              r.geometry.titlebarFrameWidth == s.geometry.titlebarFrameWidth
  {
    match ev
    case StateChanged(state, style) =>
      StateChangeEstablishesInvariant(s, state, style);
      OnWindowStateChange(s, state, style)
    case CornerWidgetSet(w, h) =>
      CornerWidgetKeepsInvariant(s, w, h);
      OnSetTabAreaCornerWidget(s, w, h)
    case Message(_, _) =>
      s
  }

  /** The answer to one event: a reply for a message, nothing otherwise. */
  function Respond(s: ChromeState, ev: Event): Option<WinReply>
    requires EventSafe(s, ev)
  {
    if ev.Message? then Some(Dispatch(s, ev.msg, ev.env)) else None
  }

  predicate RunSafe(s: ChromeState, evs: seq<Event>)
    decreases |evs|
  {
    evs == [] || (EventSafe(s, evs[0]) && RunSafe(Apply(s, evs[0]), evs[1..]))
  }

  function Run(s: ChromeState, evs: seq<Event>): ChromeState
    requires RunSafe(s, evs)
    decreases |evs|
  {
    if evs == [] then s else Run(Apply(s, evs[0]), evs[1..])
  }

  /** One answer per event, in order. */
  function Replies(s: ChromeState, evs: seq<Event>): (rs: seq<Option<WinReply>>)
    requires RunSafe(s, evs)
    ensures |rs| == |evs|
    ensures forall i :: 0 <= i < |evs| ==> (rs[i].Some? <==> evs[i].Message?)
    decreases |evs|
  {
    if evs == [] then [] else [Respond(s, evs[0])] + Replies(Apply(s, evs[0]), evs[1..])
  }

  /**
   * The i-th answer is the answer to the i-th event given in the state that the
   * events before it left behind.
   */
  lemma {:induction false} ReplyAt(s: ChromeState, evs: seq<Event>, i: nat)
    requires RunSafe(s, evs) && i < |evs|
    ensures RunSafe(s, evs[..i]) && EventSafe(Run(s, evs[..i]), evs[i])
    ensures Replies(s, evs)[i] == Respond(Run(s, evs[..i]), evs[i])
    decreases i
  {
    if i > 0 {
      var s' := Apply(s, evs[0]);
      ReplyAt(s', evs[1..], i - 1);
      assert evs[1..][..i - 1] == evs[..i][1..];
      assert evs[1..][i - 1] == evs[i];
      assert evs[..i][0] == evs[0];
    }
  }

  /** An inert controller never reads the corner widget, so every sequence is safe for it. */
  lemma {:induction false} InertRunIsSafe(s: ChromeState, evs: seq<Event>)
    requires !s.compositionEnabled
    ensures RunSafe(s, evs)
    decreases |evs|
  {
    if evs != [] {
      InertRunIsSafe(Apply(s, evs[0]), evs[1..]);
    }
  }

  /** The composition gate is decided once, at construction, and never changes. */
  lemma {:induction false} RunKeepsGate(s: ChromeState, evs: seq<Event>)
    requires RunSafe(s, evs)
    ensures Run(s, evs).compositionEnabled == s.compositionEnabled
    decreases |evs|
  {
    if evs != [] {
      RunKeepsGate(Apply(s, evs[0]), evs[1..]);
    }
  }

  /** The margins agree with the frame widths after any sequence of events. */
  lemma {:induction false} RunKeepsInvariant(s: ChromeState, evs: seq<Event>)
    requires RunSafe(s, evs) && ChromeInvariant(s)
    ensures ChromeInvariant(Run(s, evs))
    decreases |evs|
  {
    if evs != [] {
      RunKeepsInvariant(Apply(s, evs[0]), evs[1..]);
    }
  }

  /**
   * An inert controller lets every message through: it never reports one
   * handled, never writes a result or the MINMAXINFO record, and never asks for
   * a frame extension.
   */
  lemma {:induction false} InertRunPassesThrough(s: ChromeState, evs: seq<Event>)
    requires !s.compositionEnabled
    ensures RunSafe(s, evs)
    ensures forall i :: 0 <= i < |evs| && evs[i].Message? ==> Replies(s, evs)[i] == Some(PassThrough)
    decreases |evs|
  {
    InertRunIsSafe(s, evs);
    if evs != [] {
      var s' := Apply(s, evs[0]);
      InertRunPassesThrough(s', evs[1..]);
      forall i | 0 <= i < |evs| && evs[i].Message?
        ensures Replies(s, evs)[i] == Some(PassThrough)
      {
        if i > 0 {
          assert evs[i] == evs[1..][i - 1];
        }
      }
    }
  }

  /** Only a state-change notification touches the margins and the frame widths. */
  lemma {:induction false} MarginsOnlyFromStateChange(s: ChromeState, evs: seq<Event>)
    requires RunSafe(s, evs)
    requires forall i :: 0 <= i < |evs| ==> !evs[i].StateChanged?
    ensures var r := Run(s, evs);
            r.margins == s.margins &&
            r.geometry.windowFrameWidth == s.geometry.windowFrameWidth &&
            r.geometry.titlebarFrameWidth == s.geometry.titlebarFrameWidth
    decreases |evs|
  {
    if evs != [] {
      assert !evs[0].StateChanged?;
      assert forall i :: 0 <= i < |evs[1..]| ==> evs[1..][i] == evs[i + 1];
      MarginsOnlyFromStateChange(Apply(s, evs[0]), evs[1..]);
    }
  }

  /** Running two sequences one after the other is running their concatenation. */
  lemma {:induction false} RunAppend(s: ChromeState, a: seq<Event>, b: seq<Event>)
    requires RunSafe(s, a + b)
    ensures RunSafe(s, a) && RunSafe(Run(s, a), b)
    ensures Run(s, a + b) == Run(Run(s, a), b)
    decreases |a|
  {
    if a == [] {
      assert a + b == b;
    } else {
      assert (a + b)[0] == a[0];
      assert (a + b)[1..] == a[1..] + b;
      RunAppend(Apply(s, a[0]), a[1..], b);
    }
  }

  /**
   * Whatever came before, once the window state last changed to `state` the
   * frame widths and the margins are those of that state's profile for as long
   * as no other state change arrives.
   */
  lemma LastStateChangeDecides(s: ChromeState, before: seq<Event>, state: WindowStates, style: StyleMetrics, after: seq<Event>)
    requires RunSafe(s, before + [StateChanged(state, style)] + after)
    requires forall i :: 0 <= i < |after| ==> !after[i].StateChanged?
    ensures var r := Run(s, before + [StateChanged(state, style)] + after);
            var p := ProfileFor(state, style);
            r.geometry.windowFrameWidth == p.windowFrameWidth &&
            r.geometry.titlebarFrameWidth == p.titlebarFrameWidth &&
            r.margins == Some(FrameMargins(p.windowFrameWidth, p.titlebarFrameWidth))
  {
    var ev := StateChanged(state, style);
    RunAppend(s, before + [ev], after);
    RunAppend(s, before, [ev]);
    var mid := Run(s, before);
    assert [ev][1..] == [];
    assert Run(mid, [ev]) == Apply(mid, ev);
    MarginsOnlyFromStateChange(Run(s, before + [ev]), after);
  }

  /**
   * A controller built with the feature off or without composition answers
   * every message of any later sequence by letting it through, and applies no
   * margins unless it is told of a window-state change.
   */
  lemma DisabledControllerStaysInert(enable: bool, compositionAvailable: bool, style: StyleMetrics,
                                     windowState: WindowStates, evs: seq<Event>)
    requires !enable || !compositionAvailable
    ensures var s := Initial(enable, compositionAvailable, style, windowState);
            RunSafe(s, evs) &&
            !Run(s, evs).compositionEnabled &&
            (forall i :: 0 <= i < |evs| && evs[i].Message? ==> Replies(s, evs)[i] == Some(PassThrough)) &&
            ((forall i :: 0 <= i < |evs| ==> !evs[i].StateChanged?) ==> Run(s, evs).margins.None?)
  {
    var s := Initial(enable, compositionAvailable, style, windowState);
    InertRunPassesThrough(s, evs);
    RunKeepsGate(s, evs);
    if forall i :: 0 <= i < |evs| ==> !evs[i].StateChanged? {
      MarginsOnlyFromStateChange(s, evs);
    }
  }
}
