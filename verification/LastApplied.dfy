/** UpdateStatefulSet and its comparison with the configuration applied last, which is kept as
    JSON text in an annotation of the set itself. */
module LastApplied {
  import opened Api

  const LAST_APPLIED := "pingcap.com/last-applied-configuration"
  const LAST_SYNC := "tidb.pingcap.com/sync-timestamp"

  type Annotations = map<string, string>

  // ----- sets as values; an absent map equals an empty one -----

  datatype Template = Template(annotations: Annotations, meta: string, podSpec: string)

  /** `rest` stands for what the operator never updates: selector, service name, claims. */
  datatype SetSpec = SetSpec(replicas: int, strategy: string, template: Template, rest: string)

  datatype SetValue = SetValue(annotations: Annotations, controller: Option<string>, labels: string, spec: SetSpec)

  /** JSON, as far as it matters here: what encodes decodes to an equal specification. */
  datatype Codec = Codec(encode: SetSpec -> Option<string>, decode: string -> Option<SetSpec>)

  ghost predicate RoundTrips(codec: Codec) {
    forall s :: codec.encode(s).Some? ==> codec.decode(codec.encode(s).value) == Some(s)
  }

  function Without(a: Annotations, keys: set<string>): Annotations { a - keys }

  /** StatefulSetEqual: the new set against the configuration that the existing set records. */
  function SetEqual(codec: Codec, next: SetValue, existing: SetValue): bool {
    && next.annotations == Without(existing.annotations, {LAST_APPLIED, LAST_SYNC})
    && LAST_APPLIED in existing.annotations
    && var applied := codec.decode(existing.annotations[LAST_APPLIED]);
       && applied.Some?
       && applied.value.replicas == next.spec.replicas
       && applied.value.template.(annotations := Without(applied.value.template.annotations, {LAST_APPLIED}))
          == next.spec.template
       && applied.value.strategy == next.spec.strategy
  }

  /** templateEqual: pod specifications only. */
  function TemplateEqual(codec: Codec, next: SetValue, existing: SetValue): bool {
    && LAST_APPLIED in existing.annotations
    && var applied := codec.decode(existing.annotations[LAST_APPLIED]);
       applied.Some? && applied.value.template.podSpec == next.spec.template.podSpec
  }

  datatype Written = Nothing | EncodeFailed | Submit(submitted: SetValue)

  /** An entry of the old map, carried over under the same key. */
  function Carry(from: Annotations, key: string, to: Annotations): Annotations {
    if key in from then to[key := from[key]] else to
  }

  function MergedSpec(next: SetSpec, existing: SetSpec): SetSpec {
    existing.(
      replicas := next.replicas, strategy := next.strategy,
      template := next.template.(
        annotations := Carry(existing.template.annotations, LAST_APPLIED, next.template.annotations)))
  }

  /** The update before it is recorded. */
  function Merged(next: SetValue, existing: SetValue): SetValue {
    SetValue(Carry(existing.annotations, LAST_SYNC, next.annotations),
             if existing.controller.Some? then existing.controller else next.controller,
             next.labels, MergedSpec(next.spec, existing.spec))
  }

  /** A set with its own specification written into its annotations. */
  function Recorded(codec: Codec, s: SetValue): Option<SetValue> {
    match codec.encode(s.spec)
    case None => None
    case Some(text) => Some(s.(annotations := s.annotations[LAST_APPLIED := text]))
  }

  function Write(codec: Codec, next: SetValue, existing: SetValue): (w: Written)
    ensures w != Nothing
  {
    match Recorded(codec, Merged(next, existing))
    case None => EncodeFailed
    case Some(s) => Submit(s)
  }

  /** What is sent to the API server, if anything. */
  function Update(codec: Codec, next: SetValue, existing: SetValue): Written {
    if SetEqual(codec, next, existing) && existing.controller.Some? then Nothing
    else Write(codec, next, existing)
  }

  // ----- the code, with Go's shared maps and pointers -----

  class StringMap {
    var entries: Annotations

    constructor ()
      ensures entries == map[]
    {
      entries := map[];
    }
  }

  class Int32 {
    var value: int
  }

  predicate Differ(a: StringMap?, b: StringMap?) { a == null || a != b }

  class StatefulSet {
    var annotations: StringMap?
    var controller: Option<string>
    var labels: string
    var replicas: Int32
    var strategy: string
    var templateAnnotations: StringMap?
    var templateMeta: string
    var podSpec: string
    var rest: string

    constructor Copy(from: StatefulSet)
      ensures annotations == from.annotations && controller == from.controller && labels == from.labels
      ensures replicas == from.replicas && strategy == from.strategy && podSpec == from.podSpec
      ensures templateAnnotations == from.templateAnnotations && templateMeta == from.templateMeta && rest == from.rest
    {
      annotations := from.annotations;
      controller := from.controller;
      labels := from.labels;
      replicas := from.replicas;
      strategy := from.strategy;
      templateAnnotations := from.templateAnnotations;
      templateMeta := from.templateMeta;
      podSpec := from.podSpec;
      rest := from.rest;
    }

    function Entries(m: StringMap?): Annotations
      reads m
    {
      if m == null then map[] else m.entries
    }

    function Value(): SetValue
      reads this, annotations, templateAnnotations, replicas
    {
      SetValue(Entries(annotations), controller, labels,
               SetSpec(replicas.value, strategy, Template(Entries(templateAnnotations), templateMeta, podSpec), rest))
    }

    /** Two sets that were built apart. */
    predicate Apart(other: StatefulSet)
      reads this, other
    {
      && this != other && replicas != other.replicas
      && Differ(annotations, templateAnnotations) && Differ(other.annotations, other.templateAnnotations)
      && Differ(annotations, other.annotations) && Differ(annotations, other.templateAnnotations)
      && Differ(templateAnnotations, other.annotations) && Differ(templateAnnotations, other.templateAnnotations)
    }

    method SetLastApplied(codec: Codec) returns (ok: bool)
      requires Differ(annotations, templateAnnotations)
      modifies this`annotations, annotations
      ensures ok <==> Recorded(codec, old(Value())).Some?
      ensures ok ==> Some(Value()) == Recorded(codec, old(Value()))
      ensures !ok ==> Value() == old(Value())
      ensures annotations == old(annotations) || (old(annotations) == null && fresh(annotations))
    {
      var text := codec.encode(Value().spec);
      if text == None { return false; }
      if annotations == null { annotations := new StringMap(); }
      annotations.entries := annotations.entries[LAST_APPLIED := text.value];
      return true;
    }
  }

  function WithReplicas(s: SetValue, replicas: int): SetValue { s.(spec := s.spec.(replicas := replicas)) }

  /** Copy the existing set, then overwrite what the operator owns. The maps are shared. */
  method Overwrite(next: StatefulSet, existing: StatefulSet) returns (s: StatefulSet)
    requires next.Apart(existing)
    modifies existing.replicas
    ensures fresh(s) && s.annotations == next.annotations && s.templateAnnotations == next.templateAnnotations
    ensures s.replicas == existing.replicas && s.replicas.value == next.replicas.value
    ensures s.controller == (if existing.controller == None then next.controller else existing.controller)
    ensures s.labels == next.labels && s.strategy == next.strategy && s.rest == existing.rest
    ensures s.templateMeta == next.templateMeta && s.podSpec == next.podSpec
  {
    s := new StatefulSet.Copy(existing);
    s.replicas.value := next.replicas.value;
    s.strategy := next.strategy;
    s.labels := next.labels;
    s.annotations := next.annotations;
    s.templateAnnotations, s.templateMeta, s.podSpec := next.templateAnnotations, next.templateMeta, next.podSpec;
    if existing.controller == None { s.controller := next.controller; }
  }

  /** The pod template keeps what it recorded, the set its sync timestamp. */
  method CarryOver(s: StatefulSet, existing: StatefulSet)
    requires s.annotations != null && existing.annotations != null && s != existing
    requires Differ(s.annotations, s.templateAnnotations)
    requires Differ(s.annotations, existing.annotations) && Differ(s.annotations, existing.templateAnnotations)
    requires Differ(s.templateAnnotations, existing.annotations)
    requires Differ(s.templateAnnotations, existing.templateAnnotations)
    modifies s`templateAnnotations, s.annotations, s.templateAnnotations
    ensures s.annotations.entries == Carry(old(existing.annotations.entries), LAST_SYNC, old(s.annotations.entries))
    ensures s.Entries(s.templateAnnotations) ==
      Carry(old(existing.Entries(existing.templateAnnotations)), LAST_APPLIED, old(s.Entries(s.templateAnnotations)))
    ensures s.templateAnnotations == old(s.templateAnnotations) || fresh(s.templateAnnotations)
  {
    if existing.templateAnnotations != null && LAST_APPLIED in existing.templateAnnotations.entries {
      if s.templateAnnotations == null { s.templateAnnotations := new StringMap(); }
      s.templateAnnotations.entries :=
        s.templateAnnotations.entries[LAST_APPLIED := existing.templateAnnotations.entries[LAST_APPLIED]];
    }
    if LAST_SYNC in existing.annotations.entries {
      s.annotations.entries := s.annotations.entries[LAST_SYNC := existing.annotations.entries[LAST_SYNC]];
    }
  }

  method Merge(next: StatefulSet, existing: StatefulSet) returns (s: StatefulSet)
    requires next.Apart(existing) && next.annotations != null && existing.annotations != null
    modifies next.annotations, next.templateAnnotations, existing.replicas
    ensures fresh(s) && s.annotations == next.annotations && Differ(s.annotations, s.templateAnnotations)
    ensures s.Value() == Merged(old(next.Value()), old(existing.Value()))
    ensures existing.Value() == WithReplicas(old(existing.Value()), old(next.Value()).spec.replicas)
  {
    hide Carry;
    s := Overwrite(next, existing);
    CarryOver(s, existing);
  }

  method MergeAndRecord(codec: Codec, next: StatefulSet, existing: StatefulSet) returns (w: Written)
    requires next.Apart(existing) && next.annotations != null && existing.annotations != null
    modifies next.annotations, next.templateAnnotations, existing.replicas
    ensures w == Write(codec, old(next.Value()), old(existing.Value()))
    ensures w.Submit? ==> next.annotations.entries == w.submitted.annotations
    ensures existing.Value() == WithReplicas(old(existing.Value()), old(next.Value()).spec.replicas)
  {
    hide Merged;
    var s := Merge(next, existing);
    var ok := s.SetLastApplied(codec);
    if !ok { return EncodeFailed; }
    return Submit(s.Value());
  }

  method EnsureMaps(next: StatefulSet, existing: StatefulSet)
    requires next.Apart(existing)
    modifies next`annotations, existing`annotations
    ensures next.Apart(existing) && next.annotations != null && existing.annotations != null
    ensures next.Value() == old(next.Value()) && existing.Value() == old(existing.Value())
    ensures next.annotations == old(next.annotations) || fresh(next.annotations)
  {
    if next.annotations == null { next.annotations := new StringMap(); }
    if existing.annotations == null { existing.annotations := new StringMap(); }
  }

  /** The submitted set shares its annotations with the new one, and its replica count with the
      existing one; so after a submission the object passed as new carries the annotations that
      went out, and the existing one the new count. */
  method UpdateStatefulSet(codec: Codec, next: StatefulSet, existing: StatefulSet) returns (w: Written)
    requires next.Apart(existing)
    modifies next, next.annotations, next.templateAnnotations, existing, existing.replicas
    ensures w == Update(codec, old(next.Value()), old(existing.Value()))
    ensures w == Nothing ==> next.Value() == old(next.Value()) && existing.Value() == old(existing.Value())
    ensures w.Submit? ==> next.annotations != null && next.annotations.entries == w.submitted.annotations
    ensures w.Submit? ==>
      existing.Value() == WithReplicas(old(existing.Value()), old(next.Value()).spec.replicas)
  {
    hide SetEqual, Write;
    EnsureMaps(next, existing);
    if SetEqual(codec, next.Value(), existing.Value()) && existing.controller != None { return Nothing; }
    w := MergeAndRecord(codec, next, existing);
  }

  // ----- idempotence -----

  /** What the API server gives back later: the metadata as sent; it may have filled in defaults
      in the specification. */
  ghost predicate Stores(stored: SetValue, sent: SetValue) {
    stored.annotations == sent.annotations && stored.controller == sent.controller
  }

  /** A set that uses none of the keys the operator writes itself. */
  predicate Plain(s: SetValue) {
    LAST_APPLIED !in s.annotations && LAST_SYNC !in s.annotations && LAST_APPLIED !in s.spec.template.annotations
  }

  /** The comparison of any later set with a stored update, in terms of the set that was sent. */
  lemma {:induction false} ComparedWithUpdate(codec: Codec, next: SetValue, existing: SetValue, sent: SetValue,
      stored: SetValue, later: SetValue)
    requires RoundTrips(codec) && Write(codec, next, existing) == Submit(sent) && Stores(stored, sent)
    ensures SetEqual(codec, later, stored) <==>
      && later.annotations == Without(next.annotations, {LAST_APPLIED, LAST_SYNC})
      && later.spec.replicas == next.spec.replicas && later.spec.strategy == next.spec.strategy
      && later.spec.template
         == next.spec.template.(annotations := Without(next.spec.template.annotations, {LAST_APPLIED}))
    ensures TemplateEqual(codec, later, stored) <==> later.spec.template.podSpec == next.spec.template.podSpec
  {
    assert codec.decode(stored.annotations[LAST_APPLIED]) == Some(sent.spec);
  }

  /** After an update the same set, built again, is written no second time exactly if it uses none
      of the operator's keys and the stored set has a controller; and it never counts as a new
      template. Annotations carried over from before, and an orphan's adoption, do not matter. */
  lemma {:induction false} SecondUpdateWritesNothing(codec: Codec, next: SetValue, existing: SetValue,
      sent: SetValue, stored: SetValue)
    requires RoundTrips(codec) && Update(codec, next, existing) == Submit(sent) && Stores(stored, sent)
    ensures Update(codec, next, stored) == Nothing <==>
      Plain(next) && (existing.controller.Some? || next.controller.Some?)
    ensures TemplateEqual(codec, next, stored)
  {
    hide SetEqual, MergedSpec, Carry;
    ComparedWithUpdate(codec, next, existing, sent, stored, next);
  }

  /** What a later set must change to be written: annotations, replicas, strategy or template. A
      change of labels or owner alone goes unnoticed. */
  lemma {:induction false} OnlyTheseChangesAreWritten(codec: Codec, next: SetValue, existing: SetValue,
      sent: SetValue, stored: SetValue, later: SetValue)
    requires RoundTrips(codec) && Update(codec, next, existing) == Submit(sent) && Stores(stored, sent)
    requires Plain(next) && stored.controller.Some?
    ensures Update(codec, later, stored) == Nothing <==>
      && later.annotations == next.annotations && later.spec.template == next.spec.template
      && later.spec.replicas == next.spec.replicas && later.spec.strategy == next.spec.strategy
  {
    hide SetEqual, MergedSpec, Carry;
    ComparedWithUpdate(codec, next, existing, sent, stored, later);
  }

  /** A created set is settled from the start, under the same condition. */
  lemma {:induction false} CreatedIsSettled(codec: Codec, next: SetValue, sent: SetValue, stored: SetValue)
    requires RoundTrips(codec) && Recorded(codec, next) == Some(sent) && Stores(stored, sent)
    ensures Update(codec, next, stored) == Nothing <==> Plain(next) && next.controller.Some?
    ensures TemplateEqual(codec, next, stored)
  {
  }

  /** What an update keeps of the set it replaces: its sync timestamp, what its pod template
      recorded, its controller if it has one, and everything the operator never updates. */
  lemma {:induction false} UpdateKeeps(codec: Codec, next: SetValue, existing: SetValue, sent: SetValue)
    requires Update(codec, next, existing) == Submit(sent)
    ensures LAST_SYNC in existing.annotations ==>
      LAST_SYNC in sent.annotations && sent.annotations[LAST_SYNC] == existing.annotations[LAST_SYNC]
    ensures LAST_APPLIED in existing.spec.template.annotations ==>
      && LAST_APPLIED in sent.spec.template.annotations
      && sent.spec.template.annotations[LAST_APPLIED] == existing.spec.template.annotations[LAST_APPLIED]
    ensures existing.controller.Some? ==> sent.controller == existing.controller
    ensures sent.spec.rest == existing.spec.rest
  {
  }

  /** The object that went through an update is spent: it shares the annotations that were sent,
      so handing it in again would be written again. Only a set built anew compares equal. */
  lemma {:induction false} SpentObjectIsWrittenAgain(codec: Codec, next: SetValue, existing: SetValue,
      sent: SetValue, stored: SetValue, spent: SetValue)
    requires Update(codec, next, existing) == Submit(sent) && spent.annotations == sent.annotations
    ensures Update(codec, spent, stored) != Nothing
  {
  }
}
