/** The reply fragments the assistant returns (`result.output.generic`) and
    their translation, in order, into the activities the bot sends back
    through the turn context. */
module Replies {

  /** One entry of an `option` fragment: `caption` is `opt.label` (a keyword
      here) and `value.input.text` is `opt.value.input.text`. */
  datatype ChoiceInput = ChoiceInput(text: string)
  datatype ChoiceValue = ChoiceValue(input: ChoiceInput)
  datatype Choice = Choice(caption: string, value: ChoiceValue)

  /** One entry of `generic`, tagged by its `response_type`; every response
      type other than `text`, `option` and `iframe` is `Other`. */
  datatype Fragment =
    | Text(text: string)
    | Options(options: seq<Choice>)
    | IFrame(title: string, description: string, source: string)
    | Other(responseType: string)

  datatype ActionType = ImBack | OpenUrl

  datatype CardAction = CardAction(kind: ActionType, title: string, value: string)

  /** The fields `CardFactory.heroCard(title, images, buttons, { text })` fills. */
  datatype HeroCard = HeroCard(title: string, images: seq<string>, buttons: seq<CardAction>, text: string)

  /** One `context.sendActivity` of the dispatch loop. */
  datatype Send =
    | SendText(text: string)
    | SendSuggested(actions: seq<CardAction>)
    | SendHero(card: HeroCard)

  const OpenWebsite: string := "Open Website"

  /** The suggested actions built for the entries of an `option` fragment. */
  function ActionsFor(options: seq<Choice>): seq<CardAction>
  {
    seq(|options|, i requires 0 <= i < |options| =>
      CardAction(ImBack, options[i].caption, options[i].value.input.text))
  }

  /** The hero card sent for an `iframe` fragment. */
  function HeroCardFor(title: string, text: string, src: string): HeroCard
  {
    HeroCard(title, [src], [CardAction(OpenUrl, OpenWebsite, src)], text)
  }

  /** A fragment that produces a send; the others are dropped. */
  predicate Rendered(f: Fragment)
  {
    !f.Other?
  }

  /** What one fragment sends. */
  function Render(f: Fragment): seq<Send>
  {
    match f
    case Text(t) => [SendText(t)]
    case Options(options) => [SendSuggested(ActionsFor(options))]
    case IFrame(title, description, source) => [SendHero(HeroCardFor(title, description, source))]
    case Other(_) => []
  }

  /** Everything the loop over `generic` sends, in the order it sends it. */
  function Dispatch(fs: seq<Fragment>): seq<Send>
    decreases |fs|
  {
    if fs == [] then [] else Dispatch(fs[..|fs| - 1]) + Render(fs[|fs| - 1])
  }

  /** The positions of the fragments that produce a send. */
  function RenderedPositions(fs: seq<Fragment>): set<nat>
  {
    set i: nat | i < |fs| && Rendered(fs[i])
  }

  /** Dispatching two lists one after the other sends what dispatching
      their concatenation sends. */
  lemma {:induction false} DispatchConcat(a: seq<Fragment>, b: seq<Fragment>)
    ensures Dispatch(a + b) == Dispatch(a) + Dispatch(b)
    decreases |b|
  {
    if b == [] {
      assert a + b == a;
    } else {
      var b' := b[..|b| - 1];
      assert (a + b)[..|a + b| - 1] == a + b';
      assert (a + b)[|a + b| - 1] == b[|b| - 1];
      DispatchConcat(a, b');
    }
  }

  /** Dispatching a prefix one fragment longer sends that fragment last. */
  lemma DispatchSnoc(fs: seq<Fragment>, i: nat)
    requires i < |fs|
    ensures Dispatch(fs[..i + 1]) == Dispatch(fs[..i]) + Render(fs[i])
  {
    assert fs[..i + 1][..i] == fs[..i];
  }

  /** Splitting the fragment list anywhere splits what is sent there. */
  lemma DispatchSplit(fs: seq<Fragment>, j: nat)
    requires j <= |fs|
    ensures Dispatch(fs) == Dispatch(fs[..j]) + Dispatch(fs[j..])
  {
    assert fs == fs[..j] + fs[j..];
    DispatchConcat(fs[..j], fs[j..]);
  }

  /** Order: the send for fragment `i` comes after everything sent for the
      fragments before it and before everything sent for the ones after it. */
  lemma DispatchAt(fs: seq<Fragment>, i: nat)
    requires i < |fs|
    ensures Dispatch(fs) == Dispatch(fs[..i]) + Render(fs[i]) + Dispatch(fs[i + 1..])
  {
    DispatchSplit(fs, i + 1);
    DispatchSnoc(fs, i);
  }

  /** A fragment of any other response type sends nothing: removing it
      leaves what is sent unchanged. */
  lemma OtherDropped(fs: seq<Fragment>, i: nat)
    requires i < |fs| && fs[i].Other?
    ensures Dispatch(fs) == Dispatch(fs[..i] + fs[i + 1..])
  {
    DispatchAt(fs, i);
    DroppedBetween(fs[..i], fs[i], fs[i + 1..]);
  }

  lemma DroppedBetween(pre: seq<Fragment>, f: Fragment, post: seq<Fragment>)
    requires f.Other?
    ensures Dispatch(pre) + Render(f) + Dispatch(post) == Dispatch(pre + post)
  {
    DispatchConcat(pre, post);
  }

  /** A single fragment sends what it renders to. */
  lemma DispatchOne(f: Fragment)
    ensures Dispatch([f]) == Render(f)
  {
  }

  /** Exactly one send per `text`, `option` and `iframe` fragment. */
  lemma {:induction false} DispatchCount(fs: seq<Fragment>)
    ensures |Dispatch(fs)| == |RenderedPositions(fs)|
    decreases |fs|
  {
    if fs != [] {
      var n := |fs| - 1;
      var init := fs[..n];
      DispatchCount(init);
      var before := RenderedPositions(init);
      assert n !in before;
      if Rendered(fs[n]) {
        assert RenderedPositions(fs) == before + {n};
      } else {
        assert RenderedPositions(fs) == before;
      }
    }
  }

  /** Each kind of fragment sends one activity of its own kind: a text
      fragment its text, an option fragment one suggested-actions message
      with one `ImBack` action per entry, in order, and an iframe fragment
      one hero card whose single `OpenUrl` button opens the source. */
  lemma RenderKinds(f: Fragment)
    ensures f.Text? ==> Dispatch([f]) == [SendText(f.text)]
    ensures f.Options? ==>
      |Dispatch([f])| == 1 && Dispatch([f])[0].SendSuggested? &&
      var actions := Dispatch([f])[0].actions;
      |actions| == |f.options| &&
      forall k :: 0 <= k < |actions| ==>
        actions[k] == CardAction(ImBack, f.options[k].caption, f.options[k].value.input.text)
    ensures f.IFrame? ==>
      |Dispatch([f])| == 1 && Dispatch([f])[0].SendHero? &&
      var card := Dispatch([f])[0].card;
      card.title == f.title && card.text == f.description && card.images == [f.source] &&
      card.buttons == [CardAction(OpenUrl, "Open Website", f.source)]
    ensures f.Other? ==> Dispatch([f]) == []
  {
  }
}
