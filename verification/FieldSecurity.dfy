/**
  Field encryption at rest: a prefix marks ciphertext, encryption leaves marked text alone, and loading decrypts
  every marked leaf or refuses. The cipher is given by its two directions; what encryption adds at random may
  differ from leaf to leaf.
 */
module FieldSecurity {
  import opened Prelude
  import opened ReleaseModels

  const PREFIX := "enc:v1:"

  /** Where a leaf sits; encryption may depend on it in any way. */
  type Place = seq<nat>

  datatype Key = NoKey | Key(encrypt: (string, Place) -> string, decrypt: string -> Option<string>)

  /** The configured key, and whether ciphertext without a key must be refused. */
  datatype Security = Security(key: Key, strict: bool)

  /** The two directions of a cipher are inverse, and a token is never shorter than its plain text. */
  ghost predicate IsCipher(k: Key)
  {
    k.Key? ==>
      && (forall text, at :: k.decrypt(k.encrypt(text, at)) == Some(text))
      && (forall token :: k.decrypt(token).Some? ==> |k.decrypt(token).value| <= |token|)
  }

  predicate IsMarked(text: string) { PREFIX <= text }

  // ----- one value ----------------------------------------------------------------------------

  function EncryptValue(k: Key, text: string, at: Place): string
  {
    if text == "" || IsMarked(text) || k.NoKey? then text else PREFIX + k.encrypt(text, at)
  }

  /** None is the refusal to load. */
  function DecryptValue(s: Security, text: string): Option<string>
  {
    if !IsMarked(text) then Some(text)
    else
      match s.key
      case NoKey => if s.strict then None else Some(text)
      case Key(_, decrypt) => decrypt(text[|PREFIX|..])
  }

  /** Nothing to decrypt with, and nothing that insists on it. */
  predicate Lenient(s: Security) { s.key.NoKey? && !s.strict }

  /** A value survives storing and loading exactly if it was not marked, or nothing is ever decrypted. */
  lemma ValueRoundTrip(s: Security, k: Key, text: string, at: Place)
    requires IsCipher(s.key) && (k == s.key || k == NoKey)
    ensures DecryptValue(s, EncryptValue(k, text, at)) == Some(text) <==> Lenient(s) || !IsMarked(text)
  {
    var stored := EncryptValue(k, text, at);
    if stored != text { assert stored[|PREFIX|..] == k.encrypt(text, at); }
  }

  lemma EncryptValueTwice(k: Key, text: string, at: Place, again: Place)
    ensures EncryptValue(k, EncryptValue(k, text, at), again) == EncryptValue(k, text, at)
  {
  }

  /** Loading never hands ciphertext out as if it were text. */
  lemma LoadingIsFailClosed(s: Security, text: string)
    requires IsCipher(s.key) && !Lenient(s) && IsMarked(text)
    ensures DecryptValue(s, text) != Some(text)
  {
  }

  // ----- nested payloads ------------------------------------------------------------------------

  datatype Json =
    | Null | Bool(b: bool) | Number(n: int) | Text(text: string) | List(items: seq<Json>) | Object(members: seq<(string, Json)>)

  function EncryptJson(k: Key, j: Json, at: Place): Json
  {
    match j
    case Text(t) => Text(EncryptValue(k, t, at))
    case List(items) => List(seq(|items|, i requires 0 <= i < |items| => EncryptJson(k, items[i], at + [i])))
    case Object(ms) =>
      Object(seq(|ms|, i requires 0 <= i < |ms| => (ms[i].0, EncryptJson(k, ms[i].1, at + [i]))))
    case _ => j
  }

  predicate Decryptable(s: Security, j: Json)
  {
    match j
    case Text(t) => DecryptValue(s, t).Some?
    case List(items) => forall i :: 0 <= i < |items| ==> Decryptable(s, items[i])
    case Object(ms) => forall i :: 0 <= i < |ms| ==> Decryptable(s, ms[i].1)
    case _ => true
  }

  function DecryptedJson(s: Security, j: Json): Json
    requires Decryptable(s, j)
  {
    match j
    case Text(t) => Text(DecryptValue(s, t).value)
    case List(items) => List(seq(|items|, i requires 0 <= i < |items| => DecryptedJson(s, items[i])))
    case Object(ms) => Object(seq(|ms|, i requires 0 <= i < |ms| => (ms[i].0, DecryptedJson(s, ms[i].1))))
    case _ => j
  }

  function DecryptJson(s: Security, j: Json): Option<Json>
  {
    if Decryptable(s, j) then Some(DecryptedJson(s, j)) else None
  }

  predicate HasMark(j: Json)
  {
    match j
    case Text(t) => IsMarked(t)
    case List(items) => exists i :: 0 <= i < |items| && HasMark(items[i])
    case Object(ms) => exists i :: 0 <= i < |ms| && HasMark(ms[i].1)
    case _ => false
  }

  /** The same for payloads of any depth. */
  lemma {:induction false} JsonRoundTrip(s: Security, k: Key, j: Json, at: Place)
    requires IsCipher(s.key) && (k == s.key || k == NoKey)
    ensures DecryptJson(s, EncryptJson(k, j, at)) == Some(j) <==> Lenient(s) || !HasMark(j)
  {
    match j
    case Text(t) => ValueRoundTrip(s, k, t, at);
    case List(items) =>
      forall i | 0 <= i < |items|
        ensures DecryptJson(s, EncryptJson(k, items[i], at + [i])) == Some(items[i]) <==> Lenient(s) || !HasMark(items[i])
      {
        JsonRoundTrip(s, k, items[i], at + [i]);
      }
      ListRoundTrip(s, k, items, at);
    case Object(ms) =>
      forall i | 0 <= i < |ms|
        ensures DecryptJson(s, EncryptJson(k, ms[i].1, at + [i])) == Some(ms[i].1) <==> Lenient(s) || !HasMark(ms[i].1)
      {
        JsonRoundTrip(s, k, ms[i].1, at + [i]);
      }
      ObjectRoundTrip(s, k, ms, at);
    case _ =>
  }

  lemma {:induction false} ListRoundTrip(s: Security, k: Key, items: seq<Json>, at: Place)
    ensures DecryptJson(s, EncryptJson(k, List(items), at)) == Some(List(items)) <==>
      forall i :: 0 <= i < |items| ==> DecryptJson(s, EncryptJson(k, items[i], at + [i])) == Some(items[i])
  {
    var stored := EncryptJson(k, List(items), at);
    forall i | 0 <= i < |items| ensures stored.items[i] == EncryptJson(k, items[i], at + [i]) {}
    if Decryptable(s, stored) {
      var loaded := DecryptedJson(s, stored);
      forall i | 0 <= i < |items| ensures loaded.items[i] == DecryptedJson(s, stored.items[i]) {}
      assert loaded == List(items) <==> loaded.items == items;
      assert loaded.items == items <==> forall i :: 0 <= i < |items| ==> loaded.items[i] == items[i];
    }
  }

  lemma {:induction false} ObjectRoundTrip(s: Security, k: Key, ms: seq<(string, Json)>, at: Place)
    ensures DecryptJson(s, EncryptJson(k, Object(ms), at)) == Some(Object(ms)) <==>
      forall i :: 0 <= i < |ms| ==> DecryptJson(s, EncryptJson(k, ms[i].1, at + [i])) == Some(ms[i].1)
  {
    var stored := EncryptJson(k, Object(ms), at);
    forall i | 0 <= i < |ms| ensures stored.members[i] == (ms[i].0, EncryptJson(k, ms[i].1, at + [i])) {}
    if Decryptable(s, stored) {
      var loaded := DecryptedJson(s, stored);
      forall i | 0 <= i < |ms| ensures loaded.members[i] == (ms[i].0, DecryptedJson(s, stored.members[i].1)) {}
      assert loaded == Object(ms) <==> loaded.members == ms;
      assert loaded.members == ms <==> forall i :: 0 <= i < |ms| ==> loaded.members[i].1 == ms[i].1;
    }
  }

  lemma {:induction false} EncryptJsonTwice(k: Key, j: Json, at: Place, again: Place)
    ensures EncryptJson(k, EncryptJson(k, j, at), again) == EncryptJson(k, j, at)
  {
    match j
    case Text(t) => EncryptValueTwice(k, t, at, again);
    case List(items) =>
      forall i | 0 <= i < |items|
        ensures EncryptJson(k, EncryptJson(k, items[i], at + [i]), again + [i]) == EncryptJson(k, items[i], at + [i])
      {
        EncryptJsonTwice(k, items[i], at + [i], again + [i]);
      }
      assert EncryptJson(k, EncryptJson(k, j, at), again).items == EncryptJson(k, j, at).items;
    case Object(ms) =>
      forall i | 0 <= i < |ms|
        ensures EncryptJson(k, EncryptJson(k, ms[i].1, at + [i]), again + [i]) == EncryptJson(k, ms[i].1, at + [i])
      {
        EncryptJsonTwice(k, ms[i].1, at + [i], again + [i]);
      }
      assert EncryptJson(k, EncryptJson(k, j, at), again).members == EncryptJson(k, j, at).members;
    case _ =>
  }

  // ----- the persisted record -----------------------------------------------------------------------

  datatype Evidence = Evidence(userMaterial: bool, summary: string, claims: seq<string>)

  datatype ActionTexts = ActionTexts(
    title: string, description: string, trigger: string, note: string, before: Option<Json>, after: Option<Json>)

  datatype TreatmentTexts = TreatmentTexts(plan: string, reviewNote: string)

  datatype Artifact = Artifact(markdown: string, content: Json)

  /** Everything of a session that is encrypted; the messages are those of each conversation in turn. */
  datatype Fields = Fields(
    materials: seq<string>, sources: seq<Evidence>, target: string, goal: string, history: seq<seq<string>>,
    actions: seq<ActionTexts>, treatments: seq<TreatmentTexts>, approvalNotes: seq<string>, artifacts: seq<Artifact>)

  function MapAt<A>(items: seq<A>, store: (A, nat) -> A): (r: seq<A>)
    ensures |r| == |items| && forall i :: 0 <= i < |items| ==> r[i] == store(items[i], i)
  {
    seq(|items|, i requires 0 <= i < |items| => store(items[i], i))
  }

  /** All elements loaded, or none. */
  function LoadAll<A>(items: seq<A>, load: A -> Option<A>): (r: Option<seq<A>>)
    ensures r.Some? <==> forall i :: 0 <= i < |items| ==> load(items[i]).Some?
    ensures r.Some? ==> |r.value| == |items| && forall i :: 0 <= i < |items| ==> Some(r.value[i]) == load(items[i])
  {
    if forall i :: 0 <= i < |items| ==> load(items[i]).Some?
    then Some(seq(|items|, i requires 0 <= i < |items| && load(items[i]).Some? => load(items[i]).value))
    else None
  }

  lemma EachRoundTrips<A>(items: seq<A>, store: (A, nat) -> A, load: A -> Option<A>, good: A -> bool)
    requires forall i :: 0 <= i < |items| ==> (load(store(items[i], i)) == Some(items[i]) <==> good(items[i]))
    ensures LoadAll(MapAt(items, store), load) == Some(items) <==> forall i :: 0 <= i < |items| ==> good(items[i])
  {
    var loaded := LoadAll(MapAt(items, store), load);
    if loaded.Some? {
      assert loaded.value == items <==> forall i :: 0 <= i < |items| ==> loaded.value[i] == items[i];
    }
  }

  lemma EachTwice<A>(items: seq<A>, store: (A, nat) -> A, again: (A, nat) -> A)
    requires forall i :: 0 <= i < |items| ==> again(store(items[i], i), i) == store(items[i], i)
    ensures MapAt(MapAt(items, store), again) == MapAt(items, store)
  {
  }

  // one element of each list, stored and loaded

  function StoreText(k: Key, at: Place): (string, nat) -> string { (t: string, i: nat) => EncryptValue(k, t, at + [i]) }

  function LoadText(s: Security): string -> Option<string> { (t: string) => DecryptValue(s, t) }

  function LoadTexts(s: Security, texts: seq<string>): Option<seq<string>> { LoadAll(texts, LoadText(s)) }

  function StoreEvidence(k: Key, e: Evidence, at: Place): Evidence
  {
    if !e.userMaterial then e
    else e.(summary := EncryptValue(k, e.summary, at), claims := MapAt(e.claims, StoreText(k, at)))
  }

  function LoadEvidence(s: Security, e: Evidence): Option<Evidence>
  {
    if !e.userMaterial then Some(e)
    else
      var summary, claims := DecryptValue(s, e.summary), LoadTexts(s, e.claims);
      if summary.Some? && claims.Some? then Some(e.(summary := summary.value, claims := claims.value)) else None
  }

  function StorePayload(k: Key, p: Option<Json>, at: Place): Option<Json>
  {
    if p.Some? then Some(EncryptJson(k, p.value, at)) else None
  }

  function LoadPayload(s: Security, p: Option<Json>): Option<Option<Json>>
  {
    if p.None? then Some(None)
    else
      var j := DecryptJson(s, p.value);
      if j.Some? then Some(Some(j.value)) else None
  }

  function StoreAction(k: Key, a: ActionTexts, at: Place): ActionTexts
  {
    ActionTexts(EncryptValue(k, a.title, at + [0]), EncryptValue(k, a.description, at + [1]),
                EncryptValue(k, a.trigger, at + [2]), EncryptValue(k, a.note, at + [3]),
                StorePayload(k, a.before, at + [4]), StorePayload(k, a.after, at + [5]))
  }

  function LoadAction(s: Security, a: ActionTexts): Option<ActionTexts>
  {
    var title, description := DecryptValue(s, a.title), DecryptValue(s, a.description);
    var trigger, note := DecryptValue(s, a.trigger), DecryptValue(s, a.note);
    var before, after := LoadPayload(s, a.before), LoadPayload(s, a.after);
    if title.Some? && description.Some? && trigger.Some? && note.Some? && before.Some? && after.Some?
    then Some(ActionTexts(title.value, description.value, trigger.value, note.value, before.value, after.value))
    else None
  }

  function StoreTreatment(k: Key, t: TreatmentTexts, at: Place): TreatmentTexts
  {
    TreatmentTexts(EncryptValue(k, t.plan, at + [0]), EncryptValue(k, t.reviewNote, at + [1]))
  }

  function LoadTreatment(s: Security, t: TreatmentTexts): Option<TreatmentTexts>
  {
    var plan, note := DecryptValue(s, t.plan), DecryptValue(s, t.reviewNote);
    if plan.Some? && note.Some? then Some(TreatmentTexts(plan.value, note.value)) else None
  }

  function StoreArtifact(k: Key, a: Artifact, at: Place): Artifact
  {
    Artifact(EncryptValue(k, a.markdown, at + [0]), EncryptJson(k, a.content, at + [1]))
  }

  function LoadArtifact(s: Security, a: Artifact): Option<Artifact>
  {
    var markdown, content := DecryptValue(s, a.markdown), DecryptJson(s, a.content);
    if markdown.Some? && content.Some? then Some(Artifact(markdown.value, content.value)) else None
  }

  function EncryptFields(k: Key, x: Fields): Fields
  {
    Fields(
      MapAt(x.materials, StoreText(k, [0])),
      MapAt(x.sources, (e: Evidence, i: nat) => StoreEvidence(k, e, [1, i])),
      EncryptValue(k, x.target, [2]), EncryptValue(k, x.goal, [3]),
      MapAt(x.history, (texts: seq<string>, i: nat) => MapAt(texts, StoreText(k, [4, i]))),
      MapAt(x.actions, (a: ActionTexts, i: nat) => StoreAction(k, a, [5, i])),
      MapAt(x.treatments, (t: TreatmentTexts, i: nat) => StoreTreatment(k, t, [6, i])),
      MapAt(x.approvalNotes, StoreText(k, [7])),
      MapAt(x.artifacts, (a: Artifact, i: nat) => StoreArtifact(k, a, [8, i])))
  }

  function DecryptFields(s: Security, x: Fields): Option<Fields>
  {
    var materials, sources := LoadTexts(s, x.materials), LoadAll(x.sources, e => LoadEvidence(s, e));
    var target, goal := DecryptValue(s, x.target), DecryptValue(s, x.goal);
    var history, actions := LoadAll(x.history, texts => LoadTexts(s, texts)), LoadAll(x.actions, a => LoadAction(s, a));
    var treatments, notes := LoadAll(x.treatments, t => LoadTreatment(s, t)), LoadTexts(s, x.approvalNotes);
    var artifacts := LoadAll(x.artifacts, a => LoadArtifact(s, a));
    if materials.Some? && sources.Some? && target.Some? && goal.Some? && history.Some? && actions.Some? &&
       treatments.Some? && notes.Some? && artifacts.Some?
    then Some(Fields(materials.value, sources.value, target.value, goal.value, history.value, actions.value,
                     treatments.value, notes.value, artifacts.value))
    else None
  }

  /** Demo sessions are stored as they are; so is everything without a key. */
  function Store(s: Security, c: Classification, x: Fields): Fields
  {
    EncryptFields(if c == PublicDemo then NoKey else s.key, x)
  }

  // what "no leaf carries the mark" means for each part

  predicate CleanTexts(texts: seq<string>) { forall i :: 0 <= i < |texts| ==> !IsMarked(texts[i]) }

  predicate CleanEvidence(e: Evidence) { e.userMaterial ==> !IsMarked(e.summary) && CleanTexts(e.claims) }

  predicate CleanPayload(p: Option<Json>) { p.Some? ==> !HasMark(p.value) }

  predicate CleanAction(a: ActionTexts)
  {
    !IsMarked(a.title) && !IsMarked(a.description) && !IsMarked(a.trigger) && !IsMarked(a.note) &&
    CleanPayload(a.before) && CleanPayload(a.after)
  }

  predicate CleanTreatment(t: TreatmentTexts) { !IsMarked(t.plan) && !IsMarked(t.reviewNote) }

  predicate CleanArtifact(a: Artifact) { !IsMarked(a.markdown) && !HasMark(a.content) }

  predicate Clean(x: Fields)
  {
    && CleanTexts(x.materials) && (forall i :: 0 <= i < |x.sources| ==> CleanEvidence(x.sources[i]))
    && !IsMarked(x.target) && !IsMarked(x.goal)
    && (forall i :: 0 <= i < |x.history| ==> CleanTexts(x.history[i]))
    && (forall i :: 0 <= i < |x.actions| ==> CleanAction(x.actions[i]))
    && (forall i :: 0 <= i < |x.treatments| ==> CleanTreatment(x.treatments[i]))
    && CleanTexts(x.approvalNotes)
    && (forall i :: 0 <= i < |x.artifacts| ==> CleanArtifact(x.artifacts[i]))
  }

  ghost predicate Fits(s: Security, k: Key) { IsCipher(s.key) && (k == s.key || k == NoKey) }

  lemma TextsRoundTrip(s: Security, k: Key, texts: seq<string>, at: Place)
    requires Fits(s, k)
    ensures LoadTexts(s, MapAt(texts, StoreText(k, at))) == Some(texts) <==> Lenient(s) || CleanTexts(texts)
  {
    var good := (t: string) => Lenient(s) || !IsMarked(t);
    forall i | 0 <= i < |texts|
      ensures LoadText(s)(StoreText(k, at)(texts[i], i)) == Some(texts[i]) <==> good(texts[i])
    {
      ValueRoundTrip(s, k, texts[i], at + [i]);
    }
    EachRoundTrips(texts, StoreText(k, at), LoadText(s), good);
  }

  lemma EvidenceRoundTrip(s: Security, k: Key, e: Evidence, at: Place)
    requires Fits(s, k)
    ensures LoadEvidence(s, StoreEvidence(k, e, at)) == Some(e) <==> Lenient(s) || CleanEvidence(e)
  {
    ValueRoundTrip(s, k, e.summary, at);
    TextsRoundTrip(s, k, e.claims, at);
  }

  lemma PayloadRoundTrip(s: Security, k: Key, p: Option<Json>, at: Place)
    requires Fits(s, k)
    ensures LoadPayload(s, StorePayload(k, p, at)) == Some(p) <==> Lenient(s) || CleanPayload(p)
  {
    if p.Some? { JsonRoundTrip(s, k, p.value, at); }
  }

  lemma ActionRoundTrip(s: Security, k: Key, a: ActionTexts, at: Place)
    requires Fits(s, k)
    ensures LoadAction(s, StoreAction(k, a, at)) == Some(a) <==> Lenient(s) || CleanAction(a)
  {
    ValueRoundTrip(s, k, a.title, at + [0]);
    ValueRoundTrip(s, k, a.description, at + [1]);
    ValueRoundTrip(s, k, a.trigger, at + [2]);
    ValueRoundTrip(s, k, a.note, at + [3]);
    PayloadRoundTrip(s, k, a.before, at + [4]);
    PayloadRoundTrip(s, k, a.after, at + [5]);
  }

  lemma TreatmentRoundTrip(s: Security, k: Key, t: TreatmentTexts, at: Place)
    requires Fits(s, k)
    ensures LoadTreatment(s, StoreTreatment(k, t, at)) == Some(t) <==> Lenient(s) || CleanTreatment(t)
  {
    ValueRoundTrip(s, k, t.plan, at + [0]);
    ValueRoundTrip(s, k, t.reviewNote, at + [1]);
  }

  lemma ArtifactRoundTrip(s: Security, k: Key, a: Artifact, at: Place)
    requires Fits(s, k)
    ensures LoadArtifact(s, StoreArtifact(k, a, at)) == Some(a) <==> Lenient(s) || CleanArtifact(a)
  {
    ValueRoundTrip(s, k, a.markdown, at + [0]);
    JsonRoundTrip(s, k, a.content, at + [1]);
  }

  lemma SourcesRoundTrip(s: Security, k: Key, x: seq<Evidence>)
    requires Fits(s, k)
    ensures LoadAll(MapAt(x, (e: Evidence, i: nat) => StoreEvidence(k, e, [1, i])), e => LoadEvidence(s, e)) == Some(x) <==>
      Lenient(s) || forall i :: 0 <= i < |x| ==> CleanEvidence(x[i])
  {
    forall e: Evidence, i: nat
      ensures LoadEvidence(s, StoreEvidence(k, e, [1, i])) == Some(e) <==> Lenient(s) || CleanEvidence(e)
    {
      EvidenceRoundTrip(s, k, e, [1, i]);
    }
    EachRoundTrips(x, (e: Evidence, i: nat) => StoreEvidence(k, e, [1, i]), e => LoadEvidence(s, e),
                   e => Lenient(s) || CleanEvidence(e));
  }

  lemma HistoryRoundTrip(s: Security, k: Key, x: seq<seq<string>>)
    requires Fits(s, k)
    ensures LoadAll(MapAt(x, (texts: seq<string>, i: nat) => MapAt(texts, StoreText(k, [4, i]))),
                    texts => LoadTexts(s, texts)) == Some(x) <==>
      Lenient(s) || forall i :: 0 <= i < |x| ==> CleanTexts(x[i])
  {
    forall texts: seq<string>, i: nat
      ensures LoadTexts(s, MapAt(texts, StoreText(k, [4, i]))) == Some(texts) <==> Lenient(s) || CleanTexts(texts)
    {
      TextsRoundTrip(s, k, texts, [4, i]);
    }
    EachRoundTrips(x, (texts: seq<string>, i: nat) => MapAt(texts, StoreText(k, [4, i])), texts => LoadTexts(s, texts),
                   texts => Lenient(s) || CleanTexts(texts));
  }

  lemma ActionsRoundTrip(s: Security, k: Key, x: seq<ActionTexts>)
    requires Fits(s, k)
    ensures LoadAll(MapAt(x, (a: ActionTexts, i: nat) => StoreAction(k, a, [5, i])), a => LoadAction(s, a)) == Some(x) <==>
      Lenient(s) || forall i :: 0 <= i < |x| ==> CleanAction(x[i])
  {
    forall a: ActionTexts, i: nat
      ensures LoadAction(s, StoreAction(k, a, [5, i])) == Some(a) <==> Lenient(s) || CleanAction(a)
    {
      ActionRoundTrip(s, k, a, [5, i]);
    }
    EachRoundTrips(x, (a: ActionTexts, i: nat) => StoreAction(k, a, [5, i]), a => LoadAction(s, a),
                   a => Lenient(s) || CleanAction(a));
  }

  lemma TreatmentsRoundTrip(s: Security, k: Key, x: seq<TreatmentTexts>)
    requires Fits(s, k)
    ensures LoadAll(MapAt(x, (t: TreatmentTexts, i: nat) => StoreTreatment(k, t, [6, i])), t => LoadTreatment(s, t)) == Some(x) <==>
      Lenient(s) || forall i :: 0 <= i < |x| ==> CleanTreatment(x[i])
  {
    forall t: TreatmentTexts, i: nat
      ensures LoadTreatment(s, StoreTreatment(k, t, [6, i])) == Some(t) <==> Lenient(s) || CleanTreatment(t)
    {
      TreatmentRoundTrip(s, k, t, [6, i]);
    }
    EachRoundTrips(x, (t: TreatmentTexts, i: nat) => StoreTreatment(k, t, [6, i]), t => LoadTreatment(s, t),
                   t => Lenient(s) || CleanTreatment(t));
  }

  lemma ArtifactsRoundTrip(s: Security, k: Key, x: seq<Artifact>)
    requires Fits(s, k)
    ensures LoadAll(MapAt(x, (a: Artifact, i: nat) => StoreArtifact(k, a, [8, i])), a => LoadArtifact(s, a)) == Some(x) <==>
      Lenient(s) || forall i :: 0 <= i < |x| ==> CleanArtifact(x[i])
  {
    forall a: Artifact, i: nat
      ensures LoadArtifact(s, StoreArtifact(k, a, [8, i])) == Some(a) <==> Lenient(s) || CleanArtifact(a)
    {
      ArtifactRoundTrip(s, k, a, [8, i]);
    }
    EachRoundTrips(x, (a: Artifact, i: nat) => StoreArtifact(k, a, [8, i]), a => LoadArtifact(s, a),
                   a => Lenient(s) || CleanArtifact(a));
  }

  /**
    Loading what was stored gives every field back, nested payloads included, exactly if no encrypted leaf already
    carried the mark, or nothing is ever decrypted. This holds of demo sessions too: they are stored as they are,
    but still decrypted.
   */
  lemma StoredFieldsLoad(s: Security, c: Classification, x: Fields)
    requires IsCipher(s.key)
    ensures DecryptFields(s, Store(s, c, x)) == Some(x) <==> Lenient(s) || Clean(x)
  {
    var k := if c == PublicDemo then NoKey else s.key;
    TextsRoundTrip(s, k, x.materials, [0]);
    SourcesRoundTrip(s, k, x.sources);
    ValueRoundTrip(s, k, x.target, [2]);
    ValueRoundTrip(s, k, x.goal, [3]);
    HistoryRoundTrip(s, k, x.history);
    ActionsRoundTrip(s, k, x.actions);
    TreatmentsRoundTrip(s, k, x.treatments);
    TextsRoundTrip(s, k, x.approvalNotes, [7]);
    ArtifactsRoundTrip(s, k, x.artifacts);
  }

  lemma TextsTwice(k: Key, texts: seq<string>, at: Place)
    ensures MapAt(MapAt(texts, StoreText(k, at)), StoreText(k, at)) == MapAt(texts, StoreText(k, at))
  {
    EachTwice(texts, StoreText(k, at), StoreText(k, at));
  }

  lemma EvidenceTwice(k: Key, e: Evidence, at: Place)
    ensures StoreEvidence(k, StoreEvidence(k, e, at), at) == StoreEvidence(k, e, at)
  {
    TextsTwice(k, e.claims, at);
  }

  lemma ActionTwice(k: Key, a: ActionTexts, at: Place)
    ensures StoreAction(k, StoreAction(k, a, at), at) == StoreAction(k, a, at)
  {
    if a.before.Some? { EncryptJsonTwice(k, a.before.value, at + [4], at + [4]); }
    if a.after.Some? { EncryptJsonTwice(k, a.after.value, at + [5], at + [5]); }
  }

  lemma ArtifactTwice(k: Key, a: Artifact, at: Place)
    ensures StoreArtifact(k, StoreArtifact(k, a, at), at) == StoreArtifact(k, a, at)
  {
    EncryptJsonTwice(k, a.content, at + [1], at + [1]);
  }

  lemma ListsTwice(k: Key, x: Fields)
    ensures EncryptFields(k, EncryptFields(k, x)).sources == EncryptFields(k, x).sources
    ensures EncryptFields(k, EncryptFields(k, x)).history == EncryptFields(k, x).history
    ensures EncryptFields(k, EncryptFields(k, x)).actions == EncryptFields(k, x).actions
    ensures EncryptFields(k, EncryptFields(k, x)).artifacts == EncryptFields(k, x).artifacts
  {
    forall i | 0 <= i < |x.sources|
      ensures StoreEvidence(k, StoreEvidence(k, x.sources[i], [1, i]), [1, i]) == StoreEvidence(k, x.sources[i], [1, i])
    {
      EvidenceTwice(k, x.sources[i], [1, i]);
    }
    forall i | 0 <= i < |x.history|
      ensures MapAt(MapAt(x.history[i], StoreText(k, [4, i])), StoreText(k, [4, i])) == MapAt(x.history[i], StoreText(k, [4, i]))
    {
      TextsTwice(k, x.history[i], [4, i]);
    }
    forall i | 0 <= i < |x.actions|
      ensures StoreAction(k, StoreAction(k, x.actions[i], [5, i]), [5, i]) == StoreAction(k, x.actions[i], [5, i])
    {
      ActionTwice(k, x.actions[i], [5, i]);
    }
    forall i | 0 <= i < |x.artifacts|
      ensures StoreArtifact(k, StoreArtifact(k, x.artifacts[i], [8, i]), [8, i]) == StoreArtifact(k, x.artifacts[i], [8, i])
    {
      ArtifactTwice(k, x.artifacts[i], [8, i]);
    }
  }

  /** Encrypting what is already encrypted changes nothing. */
  lemma EncryptionIsIdempotent(k: Key, x: Fields)
    ensures EncryptFields(k, EncryptFields(k, x)) == EncryptFields(k, x)
  {
    TextsTwice(k, x.materials, [0]);
    TextsTwice(k, x.approvalNotes, [7]);
    ListsTwice(k, x);
    assert EncryptFields(k, EncryptFields(k, x)).treatments == EncryptFields(k, x).treatments;
  }

  lemma {:induction false} JsonWithoutKey(j: Json, at: Place)
    ensures EncryptJson(NoKey, j, at) == j
  {
    match j
    case List(items) =>
      forall i | 0 <= i < |items| ensures EncryptJson(NoKey, items[i], at + [i]) == items[i] { JsonWithoutKey(items[i], at + [i]); }
      assert EncryptJson(NoKey, j, at).items == items;
    case Object(ms) =>
      forall i | 0 <= i < |ms| ensures EncryptJson(NoKey, ms[i].1, at + [i]) == ms[i].1 { JsonWithoutKey(ms[i].1, at + [i]); }
      assert EncryptJson(NoKey, j, at).members == ms;
    case _ =>
  }

  lemma ElementsWithoutKey(x: Fields)
    ensures forall i :: 0 <= i < |x.sources| ==> StoreEvidence(NoKey, x.sources[i], [1, i]) == x.sources[i]
    ensures forall i :: 0 <= i < |x.actions| ==> StoreAction(NoKey, x.actions[i], [5, i]) == x.actions[i]
    ensures forall i :: 0 <= i < |x.artifacts| ==> StoreArtifact(NoKey, x.artifacts[i], [8, i]) == x.artifacts[i]
  {
    forall i | 0 <= i < |x.sources| ensures StoreEvidence(NoKey, x.sources[i], [1, i]) == x.sources[i] {
      assert MapAt(x.sources[i].claims, StoreText(NoKey, [1, i])) == x.sources[i].claims;
    }
    forall i | 0 <= i < |x.actions| ensures StoreAction(NoKey, x.actions[i], [5, i]) == x.actions[i] {
      var a := x.actions[i];
      if a.before.Some? { JsonWithoutKey(a.before.value, [5, i] + [4]); }
      if a.after.Some? { JsonWithoutKey(a.after.value, [5, i] + [5]); }
    }
    forall i | 0 <= i < |x.artifacts| ensures StoreArtifact(NoKey, x.artifacts[i], [8, i]) == x.artifacts[i] {
      JsonWithoutKey(x.artifacts[i].content, [8, i] + [1]);
    }
  }

  /** Demo data, and all data without a key, is stored unchanged. */
  lemma DemoIsStoredUnchanged(s: Security, c: Classification, x: Fields)
    requires c == PublicDemo || s.key == NoKey
    ensures Store(s, c, x) == x
  {
    var y := EncryptFields(NoKey, x);
    ElementsWithoutKey(x);
    assert y.materials == x.materials && y.approvalNotes == x.approvalNotes;
    assert y.sources == x.sources && y.actions == x.actions;
    assert y.artifacts == x.artifacts && y.treatments == x.treatments;
    forall i | 0 <= i < |x.history| ensures y.history[i] == x.history[i] {}
    assert y.history == x.history;
  }

  // ----- what storing leaves in the clear --------------------------------------------------------------

  /** Nothing of the text is readable. */
  predicate IsSealed(text: string) { text == "" || IsMarked(text) }

  predicate SealedTexts(texts: seq<string>) { forall t :: t in texts ==> IsSealed(t) }

  /** At every depth; names of members, numbers and truth values are no texts of a user. */
  predicate SealedJson(j: Json)
  {
    match j
    case Text(t) => IsSealed(t)
    case List(items) => forall i :: 0 <= i < |items| ==> SealedJson(items[i])
    case Object(ms) => forall i :: 0 <= i < |ms| ==> SealedJson(ms[i].1)
    case _ => true
  }

  predicate SealedAction(a: ActionTexts)
  {
    && IsSealed(a.title) && IsSealed(a.description) && IsSealed(a.trigger) && IsSealed(a.note)
    && (a.before.Some? ==> SealedJson(a.before.value)) && (a.after.Some? ==> SealedJson(a.after.value))
  }

  predicate SealedFields(x: Fields)
  {
    && SealedTexts(x.materials) && IsSealed(x.target) && IsSealed(x.goal) && SealedTexts(x.approvalNotes)
    && (forall e :: e in x.sources && e.userMaterial ==> IsSealed(e.summary) && SealedTexts(e.claims))
    && (forall texts :: texts in x.history ==> SealedTexts(texts))
    && (forall a :: a in x.actions ==> SealedAction(a))
    && (forall t :: t in x.treatments ==> IsSealed(t.plan) && IsSealed(t.reviewNote))
    && (forall a :: a in x.artifacts ==> IsSealed(a.markdown) && SealedJson(a.content))
  }

  lemma {:induction false} StoredJsonIsSealed(k: Key, j: Json, at: Place)
    requires k.Key?
    ensures SealedJson(EncryptJson(k, j, at))
  {
    match j
    case List(items) =>
      forall i | 0 <= i < |items| ensures SealedJson(EncryptJson(k, items[i], at + [i])) { StoredJsonIsSealed(k, items[i], at + [i]); }
    case Object(ms) =>
      forall i | 0 <= i < |ms| ensures SealedJson(EncryptJson(k, ms[i].1, at + [i])) { StoredJsonIsSealed(k, ms[i].1, at + [i]); }
    case _ =>
  }

  lemma StoredActionIsSealed(k: Key, a: ActionTexts, at: Place)
    requires k.Key?
    ensures SealedAction(StoreAction(k, a, at))
  {
    if a.before.Some? { StoredJsonIsSealed(k, a.before.value, at + [4]); }
    if a.after.Some? { StoredJsonIsSealed(k, a.after.value, at + [5]); }
  }

  lemma StoredListsAreSealed(k: Key, x: Fields)
    requires k.Key?
    ensures var y := EncryptFields(k, x);
      && (forall a :: a in y.actions ==> SealedAction(a))
      && (forall a :: a in y.artifacts ==> IsSealed(a.markdown) && SealedJson(a.content))
  {
    var y := EncryptFields(k, x);
    forall i | 0 <= i < |x.actions| ensures SealedAction(y.actions[i]) { StoredActionIsSealed(k, x.actions[i], [5, i]); }
    forall i | 0 <= i < |x.artifacts| ensures SealedJson(y.artifacts[i].content) {
      StoredJsonIsSealed(k, x.artifacts[i].content, [8, i] + [1]);
    }
  }

  /**
    With a key, and short of demo sessions, no user text is stored in the clear, in no field and at no depth of a
    payload; evidence that is not user material is stored as it is.
   */
  lemma NothingIsStoredInTheClear(s: Security, c: Classification, x: Fields)
    requires s.key.Key? && c != PublicDemo
    ensures SealedFields(Store(s, c, x))
    ensures |Store(s, c, x).sources| == |x.sources|
    ensures forall i :: 0 <= i < |x.sources| ==>
      var y := Store(s, c, x).sources[i]; y.userMaterial == x.sources[i].userMaterial && (!y.userMaterial ==> y == x.sources[i])
  {
    StoredListsAreSealed(s.key, x);
  }

  // ----- in place ---------------------------------------------------------------------------------------

  method StoreEach<A>(items: seq<A>, store: (A, nat) -> A) returns (r: seq<A>)
    ensures r == MapAt(items, store)
  {
    r := items;
    for i := 0 to |items|
      invariant |r| == |items|
      invariant forall j :: 0 <= j < |items| ==> r[j] == if j < i then store(items[j], j) else items[j]
    {
      r := r[i := store(items[i], i)];
    }
  }

  /** Stops at the first element that refuses to load. */
  method LoadEach<A>(items: seq<A>, load: A -> Option<A>) returns (r: Option<seq<A>>)
    ensures r == LoadAll(items, load)
  {
    var done := items;
    for i := 0 to |items|
      invariant |done| == |items|
      invariant forall j :: 0 <= j < i ==> load(items[j]) == Some(done[j])
    {
      var loaded := load(items[i]);
      if loaded.None? { return None; }
      done := done[i := loaded.value];
    }
    assert done == LoadAll(items, load).value;
    r := Some(done);
  }

  class StoredContext {
    var materials: seq<string>
    var sources: seq<Evidence>
    var target: string
    var goal: string
    var history: seq<seq<string>>
    var actions: seq<ActionTexts>
    var treatments: seq<TreatmentTexts>
    var approvalNotes: seq<string>
    var artifacts: seq<Artifact>

    constructor (x: Fields)
      ensures View() == x
    {
      materials, sources, target, goal, history := x.materials, x.sources, x.target, x.goal, x.history;
      actions, treatments, approvalNotes, artifacts := x.actions, x.treatments, x.approvalNotes, x.artifacts;
    }

    function View(): Fields
      reads this
    {
      Fields(materials, sources, target, goal, history, actions, treatments, approvalNotes, artifacts)
    }

    method EncryptFieldsForStorage(s: Security, c: Classification)
      modifies this
      ensures View() == Store(s, c, old(View()))
    {
      if c == PublicDemo || s.key == NoKey {
        DemoIsStoredUnchanged(s, c, View());
        return;
      }
      var k := s.key;
      materials := StoreEach(materials, StoreText(k, [0]));
      sources := StoreEach(sources, (e: Evidence, i: nat) => StoreEvidence(k, e, [1, i]));
      target := EncryptValue(k, target, [2]);
      goal := EncryptValue(k, goal, [3]);
      history := StoreEach(history, (texts: seq<string>, i: nat) => MapAt(texts, StoreText(k, [4, i])));
      actions := StoreEach(actions, (a: ActionTexts, i: nat) => StoreAction(k, a, [5, i]));
      treatments := StoreEach(treatments, (t: TreatmentTexts, i: nat) => StoreTreatment(k, t, [6, i]));
      approvalNotes := StoreEach(approvalNotes, StoreText(k, [7]));
      artifacts := StoreEach(artifacts, (a: Artifact, i: nat) => StoreArtifact(k, a, [8, i]));
    }

    /** Refusing leaves the record partly decrypted; it is then not handed out. */
    method DecryptFieldsAfterLoad(s: Security) returns (ok: bool)
      modifies this
      ensures ok <==> DecryptFields(s, old(View())).Some?
      ensures ok ==> Some(View()) == DecryptFields(s, old(View()))
    {
      if Lenient(s) {
        DemoIsStoredUnchanged(s, PublicDemo, View());
        StoredFieldsLoad(s, PublicDemo, View());
        return true;
      }
      ok := DecryptInputs(s);
      if ok { ok := DecryptGovernance(s); }
    }

    method DecryptInputs(s: Security) returns (ok: bool)
      modifies `materials, `sources, `target, `goal, `history
      ensures ok <==> (LoadTexts(s, old(materials)).Some? && LoadAll(old(sources), e => LoadEvidence(s, e)).Some? &&
                       DecryptValue(s, old(target)).Some? && DecryptValue(s, old(goal)).Some? &&
                       LoadAll(old(history), texts => LoadTexts(s, texts)).Some?)
      ensures ok ==> Some(materials) == LoadTexts(s, old(materials)) && Some(sources) == LoadAll(old(sources), e => LoadEvidence(s, e))
      ensures ok ==> Some(target) == DecryptValue(s, old(target)) && Some(goal) == DecryptValue(s, old(goal))
      ensures ok ==> Some(history) == LoadAll(old(history), texts => LoadTexts(s, texts))
    {
      var texts := LoadEach(materials, LoadText(s));
      if texts.None? { return false; }
      materials := texts.value;
      var evidence := LoadEach(sources, e => LoadEvidence(s, e));
      if evidence.None? { return false; }
      sources := evidence.value;
      var value := DecryptValue(s, target);
      if value.None? { return false; }
      target := value.value;
      value := DecryptValue(s, goal);
      if value.None? { return false; }
      goal := value.value;
      var messages := LoadEach(history, m => LoadTexts(s, m));
      if messages.None? { return false; }
      history := messages.value;
      ok := true;
    }

    method DecryptGovernance(s: Security) returns (ok: bool)
      modifies `actions, `treatments, `approvalNotes, `artifacts
      ensures ok <==> (LoadAll(old(actions), a => LoadAction(s, a)).Some? &&
                       LoadAll(old(treatments), t => LoadTreatment(s, t)).Some? &&
                       LoadTexts(s, old(approvalNotes)).Some? && LoadAll(old(artifacts), a => LoadArtifact(s, a)).Some?)
      ensures ok ==> Some(actions) == LoadAll(old(actions), a => LoadAction(s, a))
      ensures ok ==> Some(treatments) == LoadAll(old(treatments), t => LoadTreatment(s, t))
      ensures ok ==> Some(approvalNotes) == LoadTexts(s, old(approvalNotes))
      ensures ok ==> Some(artifacts) == LoadAll(old(artifacts), a => LoadArtifact(s, a))
    {
      var loadedActions := LoadEach(actions, a => LoadAction(s, a));
      if loadedActions.None? { return false; }
      actions := loadedActions.value;
      var loadedTreatments := LoadEach(treatments, t => LoadTreatment(s, t));
      if loadedTreatments.None? { return false; }
      treatments := loadedTreatments.value;
      var texts := LoadEach(approvalNotes, LoadText(s));
      if texts.None? { return false; }
      approvalNotes := texts.value;
      var loadedArtifacts := LoadEach(artifacts, a => LoadArtifact(s, a));
      if loadedArtifacts.None? { return false; }
      artifacts := loadedArtifacts.value;
      ok := true;
    }
  }

  // ----- backfilling the goal of stored rows ------------------------------------------------------------

  datatype Mode = EncryptMode | VerifyMode | DecryptMode

  datatype GoalStatus =
    | Encrypted | AlreadyEncrypted | Decrypted | AlreadyPlaintext | Verified | Empty | DemoRow | InvalidJson | DecryptFailed

  /** A stored row, parsed; the remaining members of its object are one value. */
  datatype Row = Unparsable | NotAnObject | Stored(classification: Option<string>, goal: Option<string>, rest: int)

  datatype GoalTransform = GoalTransform(status: GoalStatus, changed: bool, row: Row)

  function TransformGoal(s: Security, raw: Row, mode: Mode, at: Place): GoalTransform
  {
    if !raw.Stored? then GoalTransform(InvalidJson, false, raw)
    else if raw.classification == Some("public_demo") then GoalTransform(DemoRow, false, raw)
    else if raw.goal.None? || IsBlank(raw.goal.value) then GoalTransform(Empty, false, raw)
    else
      var goal := raw.goal.value;
      var plain := DecryptValue(s, goal);
      if IsMarked(goal) then
        match mode
        case VerifyMode => if plain.None? then GoalTransform(DecryptFailed, false, raw) else GoalTransform(Verified, false, raw)
        case EncryptMode => GoalTransform(AlreadyEncrypted, false, raw)
        case DecryptMode =>
          if plain.None? then GoalTransform(DecryptFailed, false, raw)
          else GoalTransform(Decrypted, true, raw.(goal := Some(plain.value)))
      else if mode != EncryptMode then GoalTransform(AlreadyPlaintext, false, raw)
      else if s.key.NoKey? then GoalTransform(DecryptFailed, false, raw)
      else GoalTransform(Encrypted, true, raw.(goal := Some(EncryptValue(s.key, goal, at))))
  }

  predicate IsPlainGoal(raw: Row)
  {
    raw.Stored? && raw.classification != Some("public_demo") && raw.goal.Some? && !IsBlank(raw.goal.value) && !IsMarked(raw.goal.value)
  }

  lemma {:induction false} MarkedIsNotBlank(text: string)
    requires IsMarked(text)
    ensures !IsBlank(text)
    decreases |text|
  {
    assert text[0] == PREFIX[0] && !IsSpace(text[0]);
    assert text[6] == PREFIX[6];
    if IsSpace(text[|text| - 1]) {
      assert |text| > 7;
      assert PREFIX <= text[..|text| - 1];
      MarkedIsNotBlank(text[..|text| - 1]);
    }
  }

  /** Encrypting the goal of a row and decrypting it restores the row; in between it verifies and is not encrypted again. */
  lemma BackfillRestoresGoal(s: Security, raw: Row, at: Place, again: Place)
    requires IsCipher(s.key) && s.key.Key? && IsPlainGoal(raw)
    ensures var done := TransformGoal(s, raw, EncryptMode, at);
      && done.status == Encrypted && done.row != raw
      && TransformGoal(s, done.row, DecryptMode, again) == GoalTransform(Decrypted, true, raw)
      && TransformGoal(s, done.row, VerifyMode, again) == GoalTransform(Verified, false, done.row)
      && TransformGoal(s, done.row, EncryptMode, again) == GoalTransform(AlreadyEncrypted, false, done.row)
  {
    ValueRoundTrip(s, s.key, raw.goal.value, at);
    MarkedIsNotBlank(EncryptValue(s.key, raw.goal.value, at));
  }

  predicate HasGoal(raw: Row)
  {
    raw.Stored? && raw.classification != Some("public_demo") && raw.goal.Some? && !IsBlank(raw.goal.value)
  }

  /**
    What becomes of a row: it is written exactly if its goal was encrypted or decrypted, and then only the goal; encrypting
    and decrypting leave no goal as it should not be unless it fails, and failing writes nothing.
   */
  lemma GoalIsWrittenIff(s: Security, raw: Row, mode: Mode, at: Place)
    requires IsCipher(s.key)
    ensures var r := TransformGoal(s, raw, mode, at);
      && (r.changed <==> r.status in {Encrypted, Decrypted})
      && (!r.changed ==> r.row == raw)
      && (r.changed ==> HasGoal(raw) && r.row == raw.(goal := r.row.goal) && r.row.goal.Some?)
      && (HasGoal(raw) <==> r.status !in {InvalidJson, DemoRow, Empty})
      && (HasGoal(raw) ==>
            var marked := IsMarked(raw.goal.value);
            && (r.status == Encrypted <==> mode == EncryptMode && !marked && s.key.Key?)
            && (r.status == AlreadyEncrypted <==> mode == EncryptMode && marked)
            && (r.status == AlreadyPlaintext <==> mode != EncryptMode && !marked)
            && (r.status == Decrypted <==> mode == DecryptMode && marked && DecryptValue(s, raw.goal.value).Some?)
            && (r.status == Verified <==> mode == VerifyMode && marked && DecryptValue(s, raw.goal.value).Some?)
            && (r.status == Encrypted ==> IsMarked(r.row.goal.value))
            && (r.status == Decrypted ==> r.row.goal == DecryptValue(s, raw.goal.value)))
  {
    if HasGoal(raw) && s.key.Key? { ValueRoundTrip(s, s.key, raw.goal.value, at); }
  }

  /** A verified row can be decrypted, unless nothing is ever decrypted: then every marked goal verifies as it is. */
  lemma VerifiedMeansDecryptableIffNotLenient(s: Security, raw: Row, at: Place)
    requires IsCipher(s.key) && TransformGoal(s, raw, VerifyMode, at).status == Verified
    ensures TransformGoal(s, raw, DecryptMode, at).status == Decrypted
    ensures TransformGoal(s, raw, DecryptMode, at).row != raw <==> !Lenient(s)
  {
    if !Lenient(s) { LoadingIsFailClosed(s, raw.goal.value); }
  }
}
