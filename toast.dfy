/** The toast notifications: a provider holding the visible toasts, a counter
    shared by every call that numbers them, dismissal by id, and the automatic
    dismissal each toast schedules. The five-second delay is not modelled: a
    scheduled dismissal is a pending timer, and its expiry is an event. */
module Toasts {
  import opened Common

  datatype Variant = DefaultVariant | Destructive

  /** What a caller passes: every field of a toast except its id. */
  datatype ToastOptions = ToastOptions(
    title: Option<string>,
    description: Option<string>,
    variant: Option<Variant>)

  datatype Toast = Toast(
    id: string,
    title: Option<string>,
    description: Option<string>,
    variant: Option<Variant>)

  /** The stored toast: the caller's fields as given, plus the id. */
  function WithId(options: ToastOptions, id: string): (t: Toast)
    ensures t.id == id
    ensures t.title == options.title && t.description == options.description
    ensures t.variant == options.variant
  {
    Toast(id, options.title, options.description, options.variant)
  }

  // ---------------------------------------------------------------------
  // dismissal

  /** The list after dismissing `id`: the toasts with other ids, in order. */
  function Without(toasts: seq<Toast>, id: string): (r: seq<Toast>)
    ensures |r| <= |toasts|
    ensures forall t :: t in r <==> t in toasts && t.id != id
  {
    Filter(toasts, (t: Toast) => t.id != id)
  }

  predicate UniqueIds(toasts: seq<Toast>)
  {
    forall i, j :: 0 <= i < j < |toasts| ==> toasts[i].id != toasts[j].id
  }

  /** Dismissing an id that no toast has changes nothing. */
  lemma DismissUnknownIsNoOp(toasts: seq<Toast>, id: string)
    requires forall t :: t in toasts ==> t.id != id
    ensures Without(toasts, id) == toasts
  {
    FilterKeepsAll(toasts, (t: Toast) => t.id != id);
  }

  /** Dismissing twice is dismissing once. */
  lemma DismissIdempotent(toasts: seq<Toast>, id: string)
    ensures Without(Without(toasts, id), id) == Without(toasts, id)
  {
    DismissUnknownIsNoOp(Without(toasts, id), id);
  }

  /** Dismissal keeps the order: dismissing from a concatenation dismisses
      from each part. */
  lemma DismissKeepsOrder(a: seq<Toast>, b: seq<Toast>, id: string)
    ensures Without(a + b, id) == Without(a, id) + Without(b, id)
  {
    FilterConcat(a, b, (t: Toast) => t.id != id);
  }

  /** With unique ids, dismissing the toast at index `k` removes exactly that one. */
  lemma DismissRemovesOne(toasts: seq<Toast>, k: nat)
    requires UniqueIds(toasts) && k < |toasts|
    ensures Without(toasts, toasts[k].id) == toasts[..k] + toasts[k + 1..]
    ensures |Without(toasts, toasts[k].id)| == |toasts| - 1
  {
    FilterDropsOne(toasts, k, (t: Toast) => t.id != toasts[k].id);
  }

  /** Dismissal keeps ids unique. */
  lemma {:induction false} DismissKeepsUniqueIds(toasts: seq<Toast>, id: string)
    requires UniqueIds(toasts)
    ensures UniqueIds(Without(toasts, id))
    decreases |toasts|
  {
    if toasts != [] {
      DismissKeepsUniqueIds(toasts[1..], id);
      var tail := Without(toasts[1..], id);
      assert forall t :: t in tail ==> t in toasts[1..];
      assert forall t :: t in toasts[1..] ==> t.id != toasts[0].id;
    }
  }

  // ---------------------------------------------------------------------
  // numbering

  /** `id` is the decimal rendering of one of the first `n` counter values. */
  ghost predicate IssuedBy(id: string, n: nat)
  {
    exists k: nat :: 1 <= k <= n && id == NatToDecimal(k)
  }

  /** The next counter value renders as an id not issued before. */
  lemma NextIdIsFresh(n: nat, id: string)
    requires IssuedBy(id, n)
    ensures id != NatToDecimal(n + 1)
  {
    var k: nat :| 1 <= k <= n && id == NatToDecimal(k);
    if id == NatToDecimal(n + 1) {
      NatToDecimalInjective(k, n + 1);
    }
  }

  // ---------------------------------------------------------------------
  // rendering and the hook

  /** A rendered toast: title and description only when truthy, and the
      destructive styling only for that variant. */
  datatype ToastView = ToastView(
    id: string,
    title: Option<string>,
    description: Option<string>,
    destructive: bool)

  function ViewOf(t: Toast): (v: ToastView)
    ensures v.id == t.id
    ensures v.title.Some? <==> TruthyString(t.title)
    ensures v.description.Some? <==> TruthyString(t.description)
    ensures v.title.Some? ==> v.title == t.title
    ensures v.description.Some? ==> v.description == t.description
    ensures v.destructive <==> t.variant == Some(Destructive)
  {
    ToastView(t.id,
              if TruthyString(t.title) then t.title else None,
              if TruthyString(t.description) then t.description else None,
              t.variant == Some(Destructive))
  }

  /** The container: nothing at all for an empty list, otherwise one view per
      toast, in list order. */
  function Container(toasts: seq<Toast>): (r: Option<seq<ToastView>>)
    ensures r.None? <==> toasts == []
    ensures r.Some? ==> |r.value| == |toasts|
    ensures r.Some? ==> forall i :: 0 <= i < |toasts| ==> r.value[i] == ViewOf(toasts[i])
  {
    if toasts == [] then None
    else Some(seq(|toasts|, i requires 0 <= i < |toasts| => ViewOf(toasts[i])))
  }

  const OutsideProviderMessage := "useToast must be used within a ToastProvider"

  datatype HookResult = Context(toasts: seq<Toast>) | Thrown(message: string)

  /** The hook: the provider's context, or an error outside any provider. */
  function UseToast(context: Option<seq<Toast>>): (r: HookResult)
    ensures r.Thrown? <==> context.None?
    ensures r.Thrown? ==> r.message == OutsideProviderMessage
    ensures r.Context? ==> r.toasts == context.value
  {
    match context
    case None => Thrown(OutsideProviderMessage)
    case Some(toasts) => Context(toasts)
  }

  // ---------------------------------------------------------------------
  // the provider

  /** The provider with the module-level counter. `timers` lists the ids whose
      automatic dismissal is still pending, in the order they were scheduled;
      every timer has the same delay, so they expire in that order. */
  class Provider {
    var toastCount: nat
    var toasts: seq<Toast>
    var timers: seq<string>

    ghost predicate Valid()
      reads this
    {
      && UniqueIds(toasts)
      && (forall t :: t in toasts ==> IssuedBy(t.id, toastCount))
      && (forall id :: id in timers ==> IssuedBy(id, toastCount))
    }

    constructor (toastCount: nat)
      ensures Valid()
      ensures this.toastCount == toastCount && toasts == [] && timers == []
    {
      this.toastCount, toasts, timers := toastCount, [], [];
    }

    /** `toast(options)`: the counter goes up by one, the toast with the new
        count as its id goes at the end, and its dismissal is scheduled. */
    method Show(options: ToastOptions)
      requires Valid()
      modifies this
      ensures Valid()
      ensures toastCount == old(toastCount) + 1
      ensures toasts == old(toasts) + [WithId(options, NatToDecimal(toastCount))]
      ensures timers == old(timers) + [NatToDecimal(toastCount)]
      ensures forall t :: t in old(toasts) ==> t.id != NatToDecimal(toastCount)
    {
      var id := NatToDecimal(toastCount + 1);
      forall t | t in toasts
        ensures t.id != id
      {
        NextIdIsFresh(toastCount, t.id);
      }
      toastCount := toastCount + 1;
      toasts := toasts + [WithId(options, id)];
      timers := timers + [id];
      assert IssuedBy(id, toastCount);
    }

    /** `dismiss(id)`: the toasts with that id go; a pending timer stays. */
    method Dismiss(id: string)
      requires Valid()
      modifies this
      ensures Valid()
      ensures toasts == Without(old(toasts), id)
      ensures toastCount == old(toastCount) && timers == old(timers)
    {
      DismissKeepsUniqueIds(toasts, id);
      toasts := Without(toasts, id);
    }

    /** The earliest pending timer expires and dismisses its toast, exactly as
        `dismiss` would; with no timer pending nothing happens. */
    method TimerFires() returns (fired: Option<string>)
      requires Valid()
      modifies this
      ensures Valid()
      ensures fired.None? <==> old(timers) == []
      ensures fired.Some? ==> fired.value == old(timers)[0] && timers == old(timers)[1..]
      ensures fired.Some? ==> toasts == Without(old(toasts), fired.value)
      ensures fired.None? ==> toasts == old(toasts) && timers == old(timers)
      ensures toastCount == old(toastCount)
    {
      if timers == [] {
        fired := None;
      } else {
        var id := timers[0];
        fired := Some(id);
        timers := timers[1..];
        DismissKeepsUniqueIds(toasts, id);
        toasts := Without(toasts, id);
      }
    }

    /** The container on screen: nothing without toasts, otherwise one view
        per toast in list order. */
    function Render(): (r: Option<seq<ToastView>>)
      reads this
      ensures r.None? <==> toasts == []
      ensures r.Some? ==> |r.value| == |toasts| && forall i :: 0 <= i < |toasts| ==> r.value[i].id == toasts[i].id
    {
      Container(toasts)
    }
  }
}
