/**
 * The open chat panel (src/components/chat/ChatPanel.tsx): which
 * affordances it shows below the transcript and whether they accept
 * input, as a function of the widget's messages, `loading` flag and hints.
 */
module ChatPanelView {
  import opened MarketingChat
  import Widget

  /** `<MessageList messages loading />` */
  datatype MessageListView = MessageListView(messages: seq<ChatMessage>, loading: bool)

  /** `<SuggestionChips chips disabled />`, one button per chip. */
  datatype ChipsView = ChipsView(chips: seq<string>, disabled: bool)

  /** `<DemoCTA disabled />` */
  datatype DemoView = DemoView(disabled: bool)

  /** `<Composer disabled />` */
  datatype ComposerView = ComposerView(disabled: bool)

  datatype PanelView = PanelView(
    list: MessageListView,
    chips: Option<ChipsView>,
    demo: Option<DemoView>,
    composer: ComposerView)

  /** The panel's body for the given props. */
  function RenderPanel(messages: seq<ChatMessage>, loading: bool, hints: UiHints): (v: PanelView)
    ensures v.list == MessageListView(messages, loading)
    ensures v.chips.Some? <==> hints.show_suggestion_chips && |hints.chips| > 0
    ensures v.chips.Some? ==> v.chips.value.chips == hints.chips
    ensures v.demo.Some? <==> hints.show_demo_cta
    ensures v.chips.Some? ==> (v.chips.value.disabled <==> loading)
    ensures v.demo.Some? ==> (v.demo.value.disabled <==> loading)
    ensures v.composer.disabled <==> loading
  {
    PanelView(
      MessageListView(messages, loading),
      if hints.show_suggestion_chips && |hints.chips| > 0 then Some(ChipsView(hints.chips, loading)) else None,
      if hints.show_demo_cta then Some(DemoView(loading)) else None,
      ComposerView(loading))
  }

  /** Every input affordance the panel shows is disabled. */
  predicate AllDisabled(v: PanelView) {
    && v.composer.disabled
    && (v.chips.Some? ==> v.chips.value.disabled)
    && (v.demo.Some? ==> v.demo.value.disabled)
  }

  /** Every input affordance the panel shows accepts input. */
  predicate AllEnabled(v: PanelView) {
    && !v.composer.disabled
    && (v.chips.Some? ==> !v.chips.value.disabled)
    && (v.demo.Some? ==> !v.demo.value.disabled)
  }

  /** The chips, the demo button and the composer are disabled exactly while
      a send is in flight. */
  lemma DisabledExactlyWhileLoading(messages: seq<ChatMessage>, loading: bool, hints: UiHints)
    ensures AllDisabled(RenderPanel(messages, loading, hints)) <==> loading
    ensures AllEnabled(RenderPanel(messages, loading, hints)) <==> !loading
  {
  }

  /** Changing only `loading` changes nothing but the disabled flags and the
      list's typing indicator: the same chips and the same demo button show. */
  lemma LoadingChangesOnlyFlags(messages: seq<ChatMessage>, hints: UiHints)
    ensures var a := RenderPanel(messages, false, hints);
            var b := RenderPanel(messages, true, hints);
            && a.chips.Some? == b.chips.Some? && a.demo.Some? == b.demo.Some?
            && (a.chips.Some? ==> a.chips.value.chips == b.chips.value.chips)
            && a.list.messages == b.list.messages
  {
  }

  /** A freshly opened widget shows the three opening chips, enabled, and
      no demo button. */
  lemma OpeningPanel()
    ensures var v := RenderPanel(Widget.OpeningTranscript, false, Widget.InitialHints);
            && v.chips == Some(ChipsView(Widget.OpeningChips, false))
            && |v.chips.value.chips| == 3
            && v.demo == None
            && !v.composer.disabled
  {
  }
}
