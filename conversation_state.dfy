/**
 * The pure parts of the widget's send path (src/components/chat/ChatWidget.tsx):
 * the shallow object-spread merge of `state_updates` into the qualification
 * state, the `pain_points` union-dedup-cap, and the history window sent to
 * the gateway.
 */
module ConversationState {
  import opened MarketingChat

  /** The properties of `ChatState`, as the keys of the JavaScript object. */
  datatype Key =
    | VisitorType | OperationType | HeadcountRange | PainPoints | CurrentTools
    | BuyerType | InterestLevel | DemoOffered | LeadName | LeadEmail | LeadPhone

  /** A property value, whatever its declared type. */
  datatype Value = Text(text: string) | TextList(items: seq<string>) | Flag(flag: bool)

  function TextField(f: Field<string>): Field<Value> {
    match f
    case Absent => Absent
    case Null => Null
    case Val(v) => Val(Text(v))
  }

  function ListField(f: Field<seq<string>>): Field<Value> {
    match f
    case Absent => Absent
    case Null => Null
    case Val(v) => Val(TextList(v))
  }

  function FlagField(f: Field<bool>): Field<Value> {
    match f
    case Absent => Absent
    case Null => Null
    case Val(v) => Val(Flag(v))
  }

  /** `s[k]`, read as a property of the object. */
  function Get(s: ChatState, k: Key): Field<Value> {
    match k
    case VisitorType => TextField(s.visitor_type)
    case OperationType => TextField(s.operation_type)
    case HeadcountRange => TextField(s.headcount_range)
    case PainPoints => ListField(s.pain_points)
    case CurrentTools => TextField(s.current_tools)
    case BuyerType => TextField(s.buyer_type)
    case InterestLevel => TextField(s.interest_level)
    case DemoOffered => FlagField(s.demo_offered)
    case LeadName => TextField(s.lead_name)
    case LeadEmail => TextField(s.lead_email)
    case LeadPhone => TextField(s.lead_phone)
  }

  /** Two states are equal exactly when they agree on every key. */
  lemma StateExtensionality(a: ChatState, b: ChatState)
    requires forall k :: Get(a, k) == Get(b, k)
    ensures a == b
  {
    assert Get(a, VisitorType) == Get(b, VisitorType);
    assert Get(a, OperationType) == Get(b, OperationType);
    assert Get(a, HeadcountRange) == Get(b, HeadcountRange);
    assert Get(a, PainPoints) == Get(b, PainPoints);
    assert Get(a, CurrentTools) == Get(b, CurrentTools);
    assert Get(a, BuyerType) == Get(b, BuyerType);
    assert Get(a, InterestLevel) == Get(b, InterestLevel);
    assert Get(a, DemoOffered) == Get(b, DemoOffered);
    assert Get(a, LeadName) == Get(b, LeadName);
    assert Get(a, LeadEmail) == Get(b, LeadEmail);
    assert Get(a, LeadPhone) == Get(b, LeadPhone);
  }

  /** `Object.keys(u).length > 0`: some key of `u` is present. */
  predicate HasKeys(u: ChatState): (has: bool)
    ensures !has <==> && u.visitor_type.Absent? && u.operation_type.Absent? && u.headcount_range.Absent?
                      && u.pain_points.Absent? && u.current_tools.Absent? && u.buyer_type.Absent?
                      && u.interest_level.Absent? && u.demo_offered.Absent? && u.lead_name.Absent?
                      && u.lead_email.Absent? && u.lead_phone.Absent?
  {
    u != EmptyState
  }

  lemma HasKeysMeansSomeKeyPresent(u: ChatState)
    ensures HasKeys(u) <==> exists k :: !Get(u, k).Absent?
  {
    if HasKeys(u) {
      if !u.visitor_type.Absent? { assert !Get(u, VisitorType).Absent?; }
      else if !u.operation_type.Absent? { assert !Get(u, OperationType).Absent?; }
      else if !u.headcount_range.Absent? { assert !Get(u, HeadcountRange).Absent?; }
      else if !u.pain_points.Absent? { assert !Get(u, PainPoints).Absent?; }
      else if !u.current_tools.Absent? { assert !Get(u, CurrentTools).Absent?; }
      else if !u.buyer_type.Absent? { assert !Get(u, BuyerType).Absent?; }
      else if !u.interest_level.Absent? { assert !Get(u, InterestLevel).Absent?; }
      else if !u.demo_offered.Absent? { assert !Get(u, DemoOffered).Absent?; }
      else if !u.lead_name.Absent? { assert !Get(u, LeadName).Absent?; }
      else if !u.lead_email.Absent? { assert !Get(u, LeadEmail).Absent?; }
      else { assert !Get(u, LeadPhone).Absent?; }
    }
  }

  /** One property of `{ ...p, ...u }`. */
  function Override<T>(p: Field<T>, u: Field<T>): Field<T> {
    if u.Absent? then p else u
  }

  /** `{ ...p, ...u }`: every key present in `u` (a `null` included) takes
      `u`'s value, every key absent from `u` keeps `p`'s. */
  function ShallowMerge(p: ChatState, u: ChatState): (r: ChatState)
    ensures forall k :: Get(r, k) == if Get(u, k).Absent? then Get(p, k) else Get(u, k)
  {
    var r := ChatState(
      Override(p.visitor_type, u.visitor_type),
      Override(p.operation_type, u.operation_type),
      Override(p.headcount_range, u.headcount_range),
      Override(p.pain_points, u.pain_points),
      Override(p.current_tools, u.current_tools),
      Override(p.buyer_type, u.buyer_type),
      Override(p.interest_level, u.interest_level),
      Override(p.demo_offered, u.demo_offered),
      Override(p.lead_name, u.lead_name),
      Override(p.lead_email, u.lead_email),
      Override(p.lead_phone, u.lead_phone));
    r
  }

  /** Spreading an object with no keys changes nothing. */
  lemma ShallowMergeEmpty(p: ChatState)
    ensures ShallowMerge(p, EmptyState) == p
  {
    forall k ensures Get(ShallowMerge(p, EmptyState), k) == Get(p, k) {
      assert Get(EmptyState, k).Absent? by { match k case _ => }
    }
    StateExtensionality(ShallowMerge(p, EmptyState), p);
  }

  /** Spreading the same updates twice is spreading them once. */
  lemma ShallowMergeIdempotent(p: ChatState, u: ChatState)
    ensures ShallowMerge(ShallowMerge(p, u), u) == ShallowMerge(p, u)
  {
    var once := ShallowMerge(p, u);
    forall k ensures Get(ShallowMerge(once, u), k) == Get(once, k) { }
    StateExtensionality(ShallowMerge(once, u), once);
  }

  /** The client never clears a property on its own: a key the update does
      not mention keeps a set value; a set value is replaced only by a value
      the update supplies. */
  lemma ShallowMergeNeverClears(p: ChatState, u: ChatState, k: Key)
    requires Get(p, k).Val?
    ensures Get(ShallowMerge(p, u), k).Absent? == false
    ensures Get(ShallowMerge(p, u), k) != Get(p, k) ==> Get(ShallowMerge(p, u), k) == Get(u, k)
  {
  }

  // ----- pain_points: [...new Set([...existing, ...incoming])].slice(0, 3)

  const MaxPainPoints := 3

  ghost predicate NoDuplicates(s: seq<string>) {
    forall i, j :: 0 <= i < j < |s| ==> s[i] != s[j]
  }

  /** Adds the elements of `s` in order to the insertion-ordered set `acc`,
      as a JavaScript `Set` does. */
  function DedupInto(acc: seq<string>, s: seq<string>): (r: seq<string>)
    requires NoDuplicates(acc)
    ensures NoDuplicates(r)
    ensures forall x :: x in r <==> x in acc || x in s
    ensures |acc| <= |r| <= |acc| + |s|
    ensures r[..|acc|] == acc
    decreases |s|
  {
    if s == [] then acc
    else if s[0] in acc then DedupInto(acc, s[1..])
    else DedupInto(acc + [s[0]], s[1..])
  }

  /** `[...new Set(s)]`. */
  function Dedup(s: seq<string>): (r: seq<string>)
    ensures NoDuplicates(r)
    ensures forall x :: x in r <==> x in s
    ensures |r| <= |s|
  {
    DedupInto([], s)
  }

  /** Reference definition: the elements of `s` at the positions where they
      occur for the first time, in order. */
  function FirstOccurrences(s: seq<string>): seq<string> {
    if s == [] then []
    else
      var init := s[..|s| - 1];
      FirstOccurrences(init) + (if s[|s| - 1] in init then [] else [s[|s| - 1]])
  }

  lemma {:induction false} DedupIntoSnoc(acc: seq<string>, s: seq<string>, x: string)
    requires NoDuplicates(acc)
    ensures DedupInto(acc, s + [x])
         == var d := DedupInto(acc, s); if x in d then d else d + [x]
    decreases |s|
  {
    if s == [] {
      assert s + [x] == [x];
      assert [x][1..] == [];
    } else {
      assert (s + [x])[0] == s[0];
      assert (s + [x])[1..] == s[1..] + [x];
      var acc' := if s[0] in acc then acc else acc + [s[0]];
      DedupIntoSnoc(acc', s[1..], x);
    }
  }

  /** The `Set` construction keeps exactly the first occurrences, in order. */
  lemma {:induction false} DedupIsFirstOccurrences(s: seq<string>)
    ensures Dedup(s) == FirstOccurrences(s)
    decreases |s|
  {
    if s != [] {
      var init, x := s[..|s| - 1], s[|s| - 1];
      assert s == init + [x];
      DedupIsFirstOccurrences(init);
      DedupIntoSnoc([], init, x);
    }
  }

  lemma {:induction false} DedupIntoConcat(acc: seq<string>, a: seq<string>, b: seq<string>)
    requires NoDuplicates(acc)
    ensures DedupInto(acc, a + b) == DedupInto(DedupInto(acc, a), b)
    decreases |a|
  {
    if a == [] {
      assert a + b == b;
    } else {
      assert (a + b)[0] == a[0];
      assert (a + b)[1..] == a[1..] + b;
      var acc' := if a[0] in acc then acc else acc + [a[0]];
      DedupIntoConcat(acc', a[1..], b);
    }
  }

  /** A sequence without duplicates is its own dedup. */
  lemma {:induction false} DedupOfDistinct(s: seq<string>)
    requires NoDuplicates(s)
    ensures Dedup(s) == s
    decreases |s|
  {
    if s != [] {
      var init, x := s[..|s| - 1], s[|s| - 1];
      assert s == init + [x];
      assert x !in init by {
        forall i | 0 <= i < |init| ensures init[i] != x {
          assert s[i] == init[i];
        }
      }
      DedupOfDistinct(init);
      DedupIntoSnoc([], init, x);
    }
  }

  /** Within the union, the existing entries come first and unchanged. */
  lemma DedupKeepsExistingFirst(existing: seq<string>, incoming: seq<string>)
    requires NoDuplicates(existing)
    ensures |existing| <= |Dedup(existing + incoming)|
    ensures Dedup(existing + incoming)[..|existing|] == existing
  {
    DedupIntoConcat([], existing, incoming);
    DedupOfDistinct(existing);
  }

  /** `s.slice(0, n)`. */
  function Take<T>(s: seq<T>, n: nat): (r: seq<T>)
    ensures |r| == if |s| <= n then |s| else n
    ensures r == s[..|r|]
  {
    if |s| <= n then s else s[..n]
  }

  /** The pain-point rule: the first three distinct entries of existing
      followed by incoming. */
  function MergePainPoints(existing: seq<string>, incoming: seq<string>): (r: seq<string>)
    ensures NoDuplicates(r)
    ensures |r| <= MaxPainPoints
    ensures forall x :: x in r ==> x in existing || x in incoming
  {
    var d := Dedup(existing + incoming);
    var r := Take(d, MaxPainPoints);
    assert forall i, j :: 0 <= i < j < |r| ==> r[i] == d[i] && r[j] == d[j];
    assert forall x :: x in r ==> x in d;
    assert forall x :: x in existing + incoming ==> x in existing || x in incoming;
    r
  }

  /** Against the reference definition: the result is the first three of
      the first occurrences in existing followed by incoming. */
  lemma MergePainPointsIsFirstOccurrences(existing: seq<string>, incoming: seq<string>)
    ensures MergePainPoints(existing, incoming) == Take(FirstOccurrences(existing + incoming), MaxPainPoints)
  {
    DedupIsFirstOccurrences(existing + incoming);
  }

  /** The state keeps its pain points distinct and at most three. */
  ghost predicate PainPointsInvariant(f: Field<seq<string>>) {
    f.Val? ==> NoDuplicates(f.value) && |f.value| <= MaxPainPoints
  }

  /** Existing pain points (already distinct and capped) keep their places
      at the front of the merged list. */
  lemma PainPointsExistingFirst(existing: seq<string>, incoming: seq<string>)
    requires NoDuplicates(existing) && |existing| <= MaxPainPoints
    ensures |existing| <= |MergePainPoints(existing, incoming)|
    ensures MergePainPoints(existing, incoming)[..|existing|] == existing
  {
    DedupKeepsExistingFirst(existing, incoming);
  }

  /** Once three pain points are held, later ones are dropped: the rule keeps
      the first three, not the most recent three. */
  lemma PainPointsFullIgnoresIncoming(existing: seq<string>, incoming: seq<string>)
    requires NoDuplicates(existing) && |existing| == MaxPainPoints
    ensures MergePainPoints(existing, incoming) == existing
  {
    PainPointsExistingFirst(existing, incoming);
  }

  /** Below the cap nothing is lost: every existing and incoming entry is
      kept. */
  lemma PainPointsUnderCapKeepsAll(existing: seq<string>, incoming: seq<string>)
    requires |Dedup(existing + incoming)| <= MaxPainPoints
    ensures forall x :: x in MergePainPoints(existing, incoming) <==> x in existing || x in incoming
  {
    assert forall x :: x in existing || x in incoming ==> x in existing + incoming;
  }

  /** The state update of a response whose `state_updates` has keys:
      the spread merge, then the pain-point rule when the incoming list is
      non-empty. Existing pain points are `prev.pain_points ?? []`. */
  function MergeState(p: ChatState, u: ChatState): (r: ChatState)
    ensures forall k :: k != PainPoints ==> Get(r, k) == Get(ShallowMerge(p, u), k)
    ensures r.pain_points
         == if u.pain_points.Val? && u.pain_points.value != []
            then Val(MergePainPoints(p.pain_points.OrElse([]), u.pain_points.value))
            else Override(p.pain_points, u.pain_points)
  {
    var next := ShallowMerge(p, u);
    assert next.pain_points == Override(p.pain_points, u.pain_points) by {
      assert Get(next, PainPoints) == if Get(u, PainPoints).Absent? then Get(p, PainPoints) else Get(u, PainPoints);
    }
    if u.pain_points.Val? && u.pain_points.value != [] then
      next.(pain_points := Val(MergePainPoints(p.pain_points.OrElse([]), u.pain_points.value)))
    else next
  }

  /** A present but empty incoming list is not merged: it replaces the held
      pain points with `[]`, and a `null` replaces them with `null`. */
  lemma EmptyIncomingReplacesPainPoints(p: ChatState, u: ChatState)
    requires u.pain_points == Val([]) || u.pain_points.Null?
    ensures MergeState(p, u).pain_points == u.pain_points
  {
  }

  /** Whatever the service sends, merging keeps the pain-point invariant. */
  lemma MergeStatePreservesInvariant(p: ChatState, u: ChatState)
    ensures PainPointsInvariant(p.pain_points) ==> PainPointsInvariant(MergeState(p, u).pain_points)
  {
  }

  /** The widget's state after a run of responses, each merged only when its
      `state_updates` has keys. */
  function ApplyUpdates(s: ChatState, updates: seq<ChatState>): ChatState
    decreases |updates|
  {
    if updates == [] then s
    else ApplyUpdates(if HasKeys(updates[0]) then MergeState(s, updates[0]) else s, updates[1..])
  }

  /** For every sequence of responses, the pain points stay distinct and
      at most three. */
  lemma {:induction false} PainPointsInvariantAlways(s: ChatState, updates: seq<ChatState>)
    requires PainPointsInvariant(s.pain_points)
    ensures PainPointsInvariant(ApplyUpdates(s, updates).pain_points)
    decreases |updates|
  {
    if updates != [] {
      var next := if HasKeys(updates[0]) then MergeState(s, updates[0]) else s;
      MergeStatePreservesInvariant(s, updates[0]);
      PainPointsInvariantAlways(next, updates[1..]);
    }
  }

  /** Without keys the guarded merge would have changed nothing anyway. */
  lemma MergeStateEmpty(p: ChatState)
    ensures MergeState(p, EmptyState) == p
  {
    ShallowMergeEmpty(p);
  }

  // ----- the history window: messages.slice(-10)

  const HistoryLimit := 10

  /** The last `min(10, |ms|)` entries of the transcript. */
  function HistoryWindow(ms: seq<ChatMessage>): (h: seq<ChatMessage>)
    ensures |h| == if |ms| <= HistoryLimit then |ms| else HistoryLimit
    ensures ms == ms[..|ms| - |h|] + h
  {
    if |ms| <= HistoryLimit then ms else ms[|ms| - HistoryLimit..]
  }
}
