/**
 The one mutation (src/scf/executor/cloud_run.py): a replacement Service that
 differs from the authorized snapshot in its traffic, sent under a
 resourceVersion compare-and-set.
 */
module CloudRun {
  import opened Prelude

  /** A Service document: nested dictionaries and lists over opaque scalars ("" is a falsy one). */
  datatype Node = Leaf(text: string) | Dict(entries: Doc) | List(items: seq<Node>)
  type Doc = map<string, Node>

  datatype SnapshotError = NoResourceVersion | CannotPinTemplate | Malformed

  // The keys that are read or written here.
  const METADATA := "metadata"
  const SPEC := "spec"
  const PERCENT := "percent"
  const TEMPLATE := "template"
  const ANNOTATIONS := "annotations"
  const NAME := "name"
  const RESOURCE_VERSION := "resourceVersion"
  const TRAFFIC := "traffic"
  const STATUS := "status"
  const REVISION_NAME := "revisionName"
  const TAG := "tag"

  const SERVER_ONLY_METADATA: set<string> := {"selfLink", "uid", "creationTimestamp", "generation"}
  const SERVER_ONLY_ANNOTATION := "run.googleapis.com/operation-id"

  predicate Truthy(n: Node) {
    match n
    case Leaf(text) => text != ""
    case Dict(entries) => entries != map[]
    case List(items) => items != []
  }

  /** `doc.get(key)`, with anything falsy read as absent. */
  function Get(doc: Doc, key: string): Option<Node> {
    if key in doc && Truthy(doc[key]) then Some(doc[key]) else None
  }

  /** `doc.get(key) or {}`: an error when something else than a dictionary is there. */
  function Section(doc: Doc, key: string): Result<Doc, SnapshotError> {
    match Get(doc, key)
    case None => Ok(map[])
    case Some(Dict(entries)) => Ok(entries)
    case Some(_) => Err(Malformed)
  }

  function SectionOr(doc: Doc, key: string): Doc {
    match Section(doc, key)
    case Ok(entries) => entries
    case Err(_) => map[]
  }

  function ResourceVersion(doc: Doc): string {
    match Get(SectionOr(doc, METADATA), RESOURCE_VERSION)
    case Some(Leaf(v)) => v
    case _ => ""
  }

  function TrafficOf(doc: Doc): seq<Node> {
    match Get(SectionOr(doc, SPEC), TRAFFIC)
    case Some(List(items)) => items
    case _ => []
  }

  /** Traffic entries are dictionaries. */
  predicate WellFormedTraffic(entries: seq<Node>) {
    forall e <- entries :: e.Dict?
  }

  predicate Tagged(e: Node) {
    e.Dict? && Get(e.entries, TAG).Some?
  }

  function TagEntries(entries: seq<Node>): seq<Node> {
    if entries == [] then []
    else
      var rest := TagEntries(entries[1..]);
      if entries[0].Dict? && Tagged(entries[0]) then [Dict(entries[0].entries - {PERCENT})] + rest else rest
  }

  function AllTraffic(revision: string): Node {
    Dict(map[REVISION_NAME := Leaf(revision), PERCENT := Leaf("100")])
  }

  /** `build_traffic_replacement`: copy, then pop and assign nested entries one by one. */
  method BuildTrafficReplacement(snapshot: Doc, revision: string) returns (r: Result<Doc, SnapshotError>)
    ensures r == Replacement(snapshot, revision)
  {
    var replacement := snapshot - {STATUS};
    var section := Section(replacement, METADATA);
    if section.Err? { return Err(section.error); }
    var metadata := section.value - SERVER_ONLY_METADATA;
    section := Section(metadata, ANNOTATIONS);
    if section.Err? { return Err(section.error); }
    if section.value != map[] {
      metadata := metadata[ANNOTATIONS := Dict(section.value - {SERVER_ONLY_ANNOTATION})];
    }
    if Get(metadata, RESOURCE_VERSION).None? {
      return Err(NoResourceVersion);
    }
    replacement := replacement[METADATA := Dict(metadata)];

    section := Section(replacement, SPEC);
    if section.Err? { return Err(section.error); }
    var spec := section.value;
    section := Section(spec, TEMPLATE);
    if section.Err? { return Err(section.error); }
    var template := section.value;
    section := Section(template, METADATA);
    if section.Err? { return Err(section.error); }
    var templateMetadata := section.value;
    var pinned := Get(templateMetadata, NAME);
    if pinned.None? {
      var status := Section(snapshot, STATUS);
      if status.Err? { return Err(status.error); }
      pinned := Get(status.value, "latestCreatedRevisionName");
    }
    if pinned.None? {
      return Err(CannotPinTemplate);
    }
    templateMetadata := templateMetadata[NAME := pinned.value];
    template := template[METADATA := Dict(templateMetadata)];
    spec := spec[TEMPLATE := Dict(template)];

    var traffic := TrafficOf(snapshot);
    if !WellFormedTraffic(traffic) {
      return Err(Malformed);
    }
    spec := spec[TRAFFIC := List([AllTraffic(revision)] + TagEntries(traffic))];
    return Ok(replacement[SPEC := Dict(spec)]);
  }

  function CleanMetadata(metadata: Doc): Result<Doc, SnapshotError> {
    var kept := metadata - SERVER_ONLY_METADATA;
    match Section(kept, ANNOTATIONS)
    case Err(e) => Err(e)
    case Ok(annotations) =>
      var cleaned := if annotations == map[] then kept
                     else kept[ANNOTATIONS := Dict(annotations - {SERVER_ONLY_ANNOTATION})];
      if Get(cleaned, RESOURCE_VERSION).None? then Err(NoResourceVersion) else Ok(cleaned)
  }

  function PinnedName(snapshot: Doc, templateMetadata: Doc): Result<Node, SnapshotError> {
    match Get(templateMetadata, NAME)
    case Some(name) => Ok(name)
    case None =>
      match Section(snapshot, STATUS)
      case Err(e) => Err(e)
      case Ok(status) =>
        match Get(status, "latestCreatedRevisionName")
        case None => Err(CannotPinTemplate)
        case Some(name) => Ok(name)
  }

  function PinnedTemplate(snapshot: Doc, spec: Doc): Result<Doc, SnapshotError> {
    match Section(spec, TEMPLATE)
    case Err(e) => Err(e)
    case Ok(template) =>
      match Section(template, METADATA)
      case Err(e) => Err(e)
      case Ok(templateMetadata) =>
        match PinnedName(snapshot, templateMetadata)
        case Err(e) => Err(e)
        case Ok(name) => Ok(template[METADATA := Dict(templateMetadata[NAME := name])])
  }

  function Replacement(snapshot: Doc, revision: string): Result<Doc, SnapshotError> {
    match Section(snapshot, METADATA)
    case Err(e) => Err(e)
    case Ok(metadata) =>
      match CleanMetadata(metadata)
      case Err(e) => Err(e)
      case Ok(cleaned) =>
        match Section(snapshot, SPEC)
        case Err(e) => Err(e)
        case Ok(spec) =>
          match PinnedTemplate(snapshot, spec)
          case Err(e) => Err(e)
          case Ok(template) =>
            if !WellFormedTraffic(TrafficOf(snapshot)) then Err(Malformed)
            else
              var traffic := List([AllTraffic(revision)] + TagEntries(TrafficOf(snapshot)));
              Ok((snapshot - {STATUS})
                 [METADATA := Dict(cleaned)]
                 [SPEC := Dict(spec[TEMPLATE := Dict(template)][TRAFFIC := traffic])])
  }

  // --- what a replacement changes, path by path ---

  /** The node at a path of keys. */
  function Lookup(doc: Doc, path: seq<string>): Option<Node>
    requires path != []
    decreases |path|
  {
    if path[0] !in doc then None
    else if |path| == 1 then Some(doc[path[0]])
    else if doc[path[0]].Dict? then Lookup(doc[path[0]].entries, path[1..])
    else None
  }

  /** The only places a replacement may differ from its snapshot in, at or below. */
  const TOUCHED: seq<seq<string>> :=
    [[STATUS],
     [METADATA, "selfLink"], [METADATA, "uid"], [METADATA, "creationTimestamp"], [METADATA, "generation"],
     [METADATA, ANNOTATIONS, SERVER_ONLY_ANNOTATION],
     [SPEC, TEMPLATE, METADATA, NAME],
     [SPEC, TRAFFIC]]

  predicate Apart(path: seq<string>, place: seq<string>) {
    !(place <= path) && !(path <= place)
  }

  predicate Untouched(path: seq<string>, places: seq<seq<string>>) {
    path != [] && forall place <- places :: Apart(path, place)
  }

  lemma Descend(doc: Doc, path: seq<string>)
    requires |path| > 1 && Section(doc, path[0]).Ok?
    ensures Lookup(doc, path) == Lookup(SectionOr(doc, path[0]), path[1..])
  {
  }

  lemma MetadataKept(metadata: Doc, path: seq<string>)
    requires path != [] && CleanMetadata(metadata).Ok?
    requires path[0] !in SERVER_ONLY_METADATA
    requires Apart(path, [ANNOTATIONS, SERVER_ONLY_ANNOTATION])
    ensures Lookup(CleanMetadata(metadata).value, path) == Lookup(metadata, path)
  {
    var kept, cleaned := metadata - SERVER_ONLY_METADATA, CleanMetadata(metadata).value;
    if path[0] == ANNOTATIONS {
      assert |path| > 1 && path[1] != SERVER_ONLY_ANNOTATION by {
        assert |path| > 1 ==> path[..2] == [path[0], path[1]];
        assert |path| == 1 ==> path <= [ANNOTATIONS, SERVER_ONLY_ANNOTATION];
      }
      Descend(kept, path);
      if SectionOr(kept, ANNOTATIONS) != map[] {
        assert Lookup(cleaned, path) == Lookup(SectionOr(kept, ANNOTATIONS) - {SERVER_ONLY_ANNOTATION}, path[1..]);
      }
    }
  }

  lemma TemplateKept(snapshot: Doc, spec: Doc, path: seq<string>)
    requires path != [] && PinnedTemplate(snapshot, spec).Ok?
    requires Apart(path, [METADATA, NAME])
    ensures Lookup(PinnedTemplate(snapshot, spec).value, path) == Lookup(SectionOr(spec, TEMPLATE), path)
  {
    var template := SectionOr(spec, TEMPLATE);
    if path[0] == METADATA {
      assert |path| > 1 && path[1] != NAME by {
        assert |path| > 1 ==> path[..2] == [path[0], path[1]];
        assert |path| == 1 ==> path <= [METADATA, NAME];
      }
      Descend(template, path);
      Descend(PinnedTemplate(snapshot, spec).value, path);
    }
  }

  lemma BelowMetadata(snapshot: Doc, revision: string, path: seq<string>)
    requires Replacement(snapshot, revision).Ok? && |path| > 1 && path[0] == METADATA
    requires path[1] !in SERVER_ONLY_METADATA && Apart(path[1..], [ANNOTATIONS, SERVER_ONLY_ANNOTATION])
    ensures Lookup(Replacement(snapshot, revision).value, path) == Lookup(snapshot, path)
  {
    Descend(snapshot, path);
    Descend(Replacement(snapshot, revision).value, path);
    MetadataKept(SectionOr(snapshot, METADATA), path[1..]);
  }

  lemma BelowSpec(snapshot: Doc, revision: string, path: seq<string>)
    requires Replacement(snapshot, revision).Ok? && |path| > 1 && path[0] == SPEC && path[1] != TRAFFIC
    requires path[1] == TEMPLATE ==> |path| > 2 && Apart(path[2..], [METADATA, NAME])
    ensures Lookup(Replacement(snapshot, revision).value, path) == Lookup(snapshot, path)
  {
    var spec := SectionOr(snapshot, SPEC);
    Descend(snapshot, path);
    Descend(Replacement(snapshot, revision).value, path);
    if path[1] == TEMPLATE {
      Descend(spec, path[1..]);
      TemplateKept(snapshot, spec, path[2..]);
      assert path[1..][1..] == path[2..];
    }
  }

  /** A replacement differs from its snapshot only at or below the touched places. */
  lemma OnlyTrafficIsReplaced(snapshot: Doc, revision: string, path: seq<string>)
    requires Replacement(snapshot, revision).Ok? && Untouched(path, TOUCHED)
    ensures Lookup(Replacement(snapshot, revision).value, path) == Lookup(snapshot, path)
  {
    assert forall i :: 0 <= i < |TOUCHED| ==> Apart(path, TOUCHED[i]);
    assert Apart(path, TOUCHED[0]) && Apart(path, TOUCHED[1]) && Apart(path, TOUCHED[2]) && Apart(path, TOUCHED[3]);
    assert Apart(path, TOUCHED[4]) && Apart(path, TOUCHED[5]) && Apart(path, TOUCHED[6]) && Apart(path, TOUCHED[7]);
    assert path[..1] == [path[0]];
    if path[0] == METADATA {
      assert |path| > 1;
      assert path[..2] == [path[0], path[1]];
      ApartBelow(path, TOUCHED[5]);
      BelowMetadata(snapshot, revision, path);
    } else if path[0] == SPEC {
      assert |path| > 1;
      assert path[..2] == [path[0], path[1]];
      if path[1] == TEMPLATE {
        ApartBelow(path, TOUCHED[6]);
        assert |path| > 2;
        ApartBelow(path[1..], TOUCHED[6][1..]);
        assert path[1..][1..] == path[2..];
      }
      BelowSpec(snapshot, revision, path);
    }
  }

  lemma ApartBelow(path: seq<string>, place: seq<string>)
    requires |path| > 1 && |place| > 1 && path[0] == place[0] && Apart(path, place)
    ensures Apart(path[1..], place[1..])
  {
    assert path == [path[0]] + path[1..] && place == [place[0]] + place[1..];
  }

  /** The replacement carries the snapshot's own resourceVersion and names the pinned template. */
  lemma PreconditionIsTheSnapshots(snapshot: Doc, revision: string)
    requires Replacement(snapshot, revision).Ok?
    ensures ResourceVersion(Replacement(snapshot, revision).value) == ResourceVersion(snapshot)
    ensures var template := SectionOr(SectionOr(Replacement(snapshot, revision).value, SPEC), TEMPLATE);
            Get(SectionOr(template, METADATA), NAME).Some?
  {
    var metadata := SectionOr(snapshot, METADATA);
    var cleaned := CleanMetadata(metadata).value;
    assert RESOURCE_VERSION in cleaned && cleaned[RESOURCE_VERSION] == metadata[RESOURCE_VERSION];
    assert Truthy(Dict(cleaned));
    var out := Replacement(snapshot, revision).value;
    var spec := SectionOr(out, SPEC);
    assert TEMPLATE in spec;
    assert out[SPEC].Dict? && Truthy(out[SPEC]);
    var template := PinnedTemplate(snapshot, SectionOr(snapshot, SPEC)).value;
    assert METADATA in template && NAME in template[METADATA].entries;
    assert spec[TEMPLATE] == Dict(template) && Truthy(Dict(template));
    assert Truthy(template[METADATA]);
  }

  /** The sections of a snapshot. */
  function MetadataOf(doc: Doc): Doc {
    SectionOr(doc, METADATA)
  }

  function TemplateOf(doc: Doc): Doc {
    SectionOr(SectionOr(doc, SPEC), TEMPLATE)
  }

  /** The name a template is pinned to: its own, and without one that of the revision created last. */
  function PinOf(snapshot: Doc): Option<Node> {
    if Get(SectionOr(TemplateOf(snapshot), "metadata"), "name").Some?
    then Get(SectionOr(TemplateOf(snapshot), "metadata"), "name")
    else Get(SectionOr(snapshot, "status"), "latestCreatedRevisionName")
  }

  /** Where a section is read there is a dictionary, or nothing. */
  predicate WellFormed(snapshot: Doc) {
    && Section(snapshot, "metadata").Ok? && Section(MetadataOf(snapshot), "annotations").Ok?
    && Section(snapshot, "spec").Ok? && Section(SectionOr(snapshot, "spec"), "template").Ok?
    && Section(TemplateOf(snapshot), "metadata").Ok?
    && (Get(SectionOr(TemplateOf(snapshot), "metadata"), "name").None? ==> Section(snapshot, "status").Ok?)
    && forall e <- TrafficOf(snapshot) :: e.Dict?
  }

  /** There is a replacement exactly for a well-formed snapshot with a resourceVersion and a name to pin
      the template to; otherwise the error says what is wrong. */
  lemma ReplacementExists(snapshot: Doc, revision: string)
    ensures Replacement(snapshot, revision).Ok? <==>
            && WellFormed(snapshot) && Get(MetadataOf(snapshot), "resourceVersion").Some? && PinOf(snapshot).Some?
    ensures match Replacement(snapshot, revision)
            case Ok(_) => true
            case Err(NoResourceVersion) => Get(MetadataOf(snapshot), "resourceVersion").None?
            case Err(CannotPinTemplate) => PinOf(snapshot).None?
            case Err(Malformed) => !WellFormed(snapshot)
  {
    var metadata := MetadataOf(snapshot);
    var kept := metadata - SERVER_ONLY_METADATA;
    assert Section(kept, ANNOTATIONS) == Section(metadata, ANNOTATIONS);
    assert Get(kept, RESOURCE_VERSION) == Get(metadata, RESOURCE_VERSION);
  }

  /** The template of a replacement bears exactly that name. */
  lemma TemplateIsPinned(snapshot: Doc, revision: string)
    requires Replacement(snapshot, revision).Ok?
    ensures Get(SectionOr(TemplateOf(Replacement(snapshot, revision).value), "metadata"), "name") == PinOf(snapshot)
    ensures PinOf(snapshot).Some?
  {
    var template := PinnedTemplate(snapshot, SectionOr(snapshot, SPEC)).value;
    var out := Replacement(snapshot, revision).value;
    assert METADATA in template && NAME in template[METADATA].entries && Truthy(template[METADATA]);
    assert SectionOr(out, SPEC)[TEMPLATE] == Dict(template) && Truthy(Dict(template));
    ReplacementExists(snapshot, revision);
  }

  /** What the server stamps for itself is not sent back to it. */
  lemma ServerFieldsAreDropped(snapshot: Doc, revision: string)
    requires Replacement(snapshot, revision).Ok?
    ensures var out := Replacement(snapshot, revision).value;
            && "status" !in out
            && "selfLink" !in MetadataOf(out) && "uid" !in MetadataOf(out)
            && "creationTimestamp" !in MetadataOf(out) && "generation" !in MetadataOf(out)
            && "run.googleapis.com/operation-id" !in SectionOr(MetadataOf(out), "annotations")
  {
    var out := Replacement(snapshot, revision).value;
    assert METADATA in out && out[METADATA] == Dict(CleanMetadata(MetadataOf(snapshot)).value);
  }

  // --- what the traffic becomes ---

  /** All traffic on `revision` and none elsewhere, and exactly the tagged entries of `before`, each
      stripped of its percent and of nothing else. */
  predicate ShiftedTraffic(before: seq<Node>, after: seq<Node>, revision: string) {
    && after != []
    && (forall i :: 0 <= i < |after| ==> after[i].Dict? && (PERCENT in after[i].entries <==> i == 0))
    && after[0].entries == map[REVISION_NAME := Leaf(revision), PERCENT := Leaf("100")]
    && (forall e <- before :: Tagged(e) ==> Dict(e.entries - {PERCENT}) in after[1..])
    && (forall n <- after[1..] :: Tagged(n) && exists e <- before :: Tagged(e) && n == Dict(e.entries - {PERCENT}))
  }

  lemma {:induction false} TagEntriesMeaning(entries: seq<Node>)
    ensures forall e <- entries :: Tagged(e) ==> Dict(e.entries - {PERCENT}) in TagEntries(entries)
    ensures forall n <- TagEntries(entries) ::
              Tagged(n) && PERCENT !in n.entries && exists e <- entries :: Tagged(e) && n == Dict(e.entries - {PERCENT})
  {
    if entries != [] {
      TagEntriesMeaning(entries[1..]);
      assert entries == [entries[0]] + entries[1..];
    }
  }

  lemma ReplacementShiftsTraffic(snapshot: Doc, revision: string)
    requires Replacement(snapshot, revision).Ok?
    ensures ShiftedTraffic(TrafficOf(snapshot), TrafficOf(Replacement(snapshot, revision).value), revision)
  {
    var out := Replacement(snapshot, revision).value;
    var after := [AllTraffic(revision)] + TagEntries(TrafficOf(snapshot));
    assert out[SPEC].Dict? && TRAFFIC in out[SPEC].entries;
    assert TrafficOf(out) == after;
    TagEntriesMeaning(TrafficOf(snapshot));
    assert after[1..] == TagEntries(TrafficOf(snapshot));
    forall i | 0 <= i < |after|
      ensures after[i].Dict? && (PERCENT in after[i].entries <==> i == 0)
    {
      assert i > 0 ==> after[i] in TagEntries(TrafficOf(snapshot));
    }
  }

  /** How many of the first `i` entries are tagged. */
  function TagsBefore(entries: seq<Node>, i: nat): nat
    requires i <= |entries|
  {
    if i == 0 then 0 else (if Tagged(entries[0]) then 1 else 0) + TagsBefore(entries[1..], i - 1)
  }

  lemma {:induction false} TagEntryAt(entries: seq<Node>, i: nat)
    requires i < |entries| && Tagged(entries[i])
    ensures TagsBefore(entries, i) < |TagEntries(entries)|
    ensures TagEntries(entries)[TagsBefore(entries, i)] == Dict(entries[i].entries - {PERCENT})
  {
    if i > 0 {
      TagEntryAt(entries[1..], i - 1);
    }
  }

  lemma {:induction false} TagEntriesAreCounted(entries: seq<Node>)
    ensures |TagEntries(entries)| == TagsBefore(entries, |entries|)
  {
    if entries != [] {
      TagEntriesAreCounted(entries[1..]);
    }
  }

  /** Behind the first entry stand exactly the tagged entries, in their order and number, each stripped
      of its percent: entry `i` comes after as many as were tagged before it. */
  lemma ReplacementKeepsTagsInOrder(snapshot: Doc, revision: string, i: nat)
    requires Replacement(snapshot, revision).Ok?
    ensures var before, after := TrafficOf(snapshot), TrafficOf(Replacement(snapshot, revision).value);
            && |after| == 1 + TagsBefore(before, |before|)
            && (i < |before| && Tagged(before[i]) ==>
                  && 1 + TagsBefore(before, i) < |after|
                  && after[1 + TagsBefore(before, i)] == Dict(before[i].entries - {PERCENT}))
  {
    var out, before := Replacement(snapshot, revision).value, TrafficOf(snapshot);
    assert out[SPEC].Dict? && TRAFFIC in out[SPEC].entries;
    assert TrafficOf(out) == [AllTraffic(revision)] + TagEntries(before);
    TagEntriesAreCounted(before);
    if i < |before| && Tagged(before[i]) {
      TagEntryAt(before, i);
    }
  }

  // --- the server ---

  /** What the server stamps for itself on every write. */
  const SERVER_OWNED: seq<seq<string>> :=
    [[STATUS],
     [METADATA, "selfLink"], [METADATA, "uid"], [METADATA, "creationTimestamp"], [METADATA, "generation"],
     [METADATA, ANNOTATIONS, SERVER_ONLY_ANNOTATION],
     [METADATA, RESOURCE_VERSION]]

  const TOUCHED_BY_A_WRITE: seq<seq<string>> := TOUCHED + [[METADATA, RESOURCE_VERSION]]

  /** The live document after the server took `body`: everything it does not own is as sent. */
  ghost predicate Honours(live: Doc, body: Doc) {
    && TrafficOf(live) == TrafficOf(body)
    && forall path :: Untouched(path, SERVER_OWNED) ==> Lookup(live, path) == Lookup(body, path)
  }

  ghost predicate OnlyTrafficChanged(before: Doc, after: Doc, revision: string) {
    && ShiftedTraffic(TrafficOf(before), TrafficOf(after), revision)
    && forall path :: Untouched(path, TOUCHED_BY_A_WRITE) ==> Lookup(after, path) == Lookup(before, path)
  }

  /** A replacement that the server takes over the very document it was built from changes nothing of
      the desired configuration but the traffic. */
  lemma TakenReplacementChangesOnlyTraffic(before: Doc, after: Doc, revision: string)
    requires Replacement(before, revision).Ok? && Honours(after, Replacement(before, revision).value)
    ensures OnlyTrafficChanged(before, after, revision)
  {
    ReplacementShiftsTraffic(before, revision);
    forall path | Untouched(path, TOUCHED_BY_A_WRITE)
      ensures Lookup(after, path) == Lookup(before, path)
    {
      assert forall place <- TOUCHED :: place in TOUCHED_BY_A_WRITE;
      assert forall place <- SERVER_OWNED :: place in TOUCHED_BY_A_WRITE by {
        assert TOUCHED_BY_A_WRITE[8] == [METADATA, RESOURCE_VERSION];
        assert forall i :: 0 <= i < 6 ==> SERVER_OWNED[i] == TOUCHED_BY_A_WRITE[i];
      }
      OnlyTrafficIsReplaced(before, revision, path);
    }
  }
}
