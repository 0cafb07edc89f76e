/**
 * The registry of triggers every form loader shares: object name to
 * signal name to the trigger bound to that signal of that object.
 *
 * A form description lists triggers, each naming an object and the events
 * (command, signal, action) bound to it.  Creating the triggers of a
 * description normalises every signal name, skips what cannot be bound,
 * keeps the first of several events for the same object and signal, and
 * replaces whatever the registry held for that object and signal before.
 *
 * A registered trigger is represented by its Binding: the command and the
 * action it was created with.  Which objects of the form exist is a set of
 * object names.
 */
module Registry {
  import opened Strings
  import Triggers

  /** One event of a trigger in a form description. */
  datatype DomEvent = DomEvent(command: string, signal: string, action: string)

  /** One trigger of a form description. */
  datatype DomTrigger = DomTrigger(objectName: string, events: seq<DomEvent>)

  /** What a registered trigger runs, and how. */
  datatype Binding = Binding(command: string, action: string)

  type TriggerMap = map<string, map<string, Binding>>

  /** The trigger registered for a signal of an object, if any. */
  function Entry(reg: TriggerMap, objectName: string, signalName: string): Option<Binding> {
    if objectName in reg && signalName in reg[objectName] then Some(reg[objectName][signalName])
    else None
  }

  // ---------------------------------------------------------------------
  // Deleting
  // ---------------------------------------------------------------------

  /** The registry without the triggers of an object. */
  function WithoutObject(reg: TriggerMap, objectName: string): TriggerMap {
    reg - {objectName}
  }

  /** The registry without the trigger of one signal of an object; the
      object keeps its (possibly empty) map. */
  function WithoutSignal(reg: TriggerMap, objectName: string, signalName: string): TriggerMap {
    if objectName in reg && signalName in reg[objectName] then
      reg[objectName := reg[objectName] - {signalName}]
    else reg
  }

  /** Registering a binding: the old trigger of that signal is deleted and
      the new one takes its place. */
  function Register(reg: TriggerMap, objectName: string, signalName: string, b: Binding): TriggerMap {
    var r := WithoutSignal(reg, objectName, signalName);
    var signals := if objectName in r then r[objectName] else map[];
    r[objectName := signals[signalName := b]]
  }

  // ---------------------------------------------------------------------
  // Signal names
  // ---------------------------------------------------------------------

  const Brackets: string := "()"

  /** A signal name without whitespace, with brackets appended unless it
      already ends in them. */
  function Normalized(signal: string): string {
    var name := RemoveSpaces(signal);
    if EndsWith(name, Brackets) then name else name + Brackets
  }

  /** Builds the normalised name character by character. */
  method NormalizeSignal(signal: string) returns (signalName: string)
    ensures signalName == Normalized(signal)
  {
    signalName := [];
    for i := 0 to |signal|
      invariant signalName == RemoveSpaces(signal[..i])
    {
      assert signal[..i + 1] == signal[..i] + [signal[i]];
      RemoveSpacesAppend(signal[..i], [signal[i]]);
      if IsSpace(signal[i]) {
        continue;
      }
      signalName := signalName + [signal[i]];
    }
    assert signal[..|signal|] == signal;
    if !EndsWith(signalName, Brackets) {
      signalName := signalName + Brackets;
    }
  }

  // ---------------------------------------------------------------------
  // What a form description binds
  // ---------------------------------------------------------------------

  /** An event that passed every check, with its normalised signal name. */
  datatype Candidate = Candidate(objectName: string, signalName: string, command: string, action: string)

  function BindingOf(c: Candidate): Binding {
    Binding(c.command, Triggers.CoercedAction(c.action))
  }

  /** An event is bound when it has a command and a signal that is not
      blank. */
  function EventCandidate(objectName: string, e: DomEvent): Option<Candidate> {
    var signal := Simplified(e.signal);
    if e.command == [] || signal == [] then None
    else Some(Candidate(objectName, Normalized(signal), e.command, e.action))
  }

  function EventCandidates(objectName: string, events: seq<DomEvent>): seq<Candidate>
    decreases |events|
  {
    if events == [] then []
    else
      var init := EventCandidates(objectName, events[..|events| - 1]);
      match EventCandidate(objectName, events[|events| - 1])
      case None => init
      case Some(c) => init + [c]
  }

  /** A trigger is bound when its object is named and exists. */
  function TriggerCandidates(t: DomTrigger, objects: set<string>): seq<Candidate> {
    if t.objectName == [] || t.objectName !in objects then []
    else EventCandidates(t.objectName, t.events)
  }

  /** The events of a description that pass every check, in order. */
  function Candidates(triggers: seq<DomTrigger>, objects: set<string>): (r: seq<Candidate>)
    ensures forall c :: c in r ==>
      c.objectName != [] && c.objectName in objects && c.command != [] &&
      EndsWith(c.signalName, Brackets) && NoSpace(c.signalName)
    decreases |triggers|
  {
    if triggers == [] then []
    else
      var init := Candidates(triggers[..|triggers| - 1], objects);
      var last := triggers[|triggers| - 1];
      CandidatesOfTrigger(last, objects);
      init + TriggerCandidates(last, objects)
  }

  // ---------------------------------------------------------------------
  // One pass of trigger creation
  // ---------------------------------------------------------------------

  /** How a pass recognises an event it has bound already.  The loader
      keys an event by its object name and signal name concatenated; a key
      made of the pair of names is what that key evidently stands for. */
  datatype KeyScheme = Paired | Concatenated

  datatype Key = PairKey(objectName: string, signalName: string) | TextKey(text: string)

  /** The key of an event for a signal of an object. */
  function KeyOf(scheme: KeyScheme, objectName: string, signalName: string): Key {
    match scheme
    case Paired => PairKey(objectName, signalName)
    case Concatenated => TextKey(objectName + signalName)
  }

  /** The registry, and the keys of the events bound so far in this pass. */
  datatype Pass = Pass(registry: TriggerMap, seen: set<Key>)

  /** An event whose key was seen already in this pass is skipped;
      otherwise its binding replaces the one registered before. */
  function Step(scheme: KeyScheme, p: Pass, c: Candidate): Pass {
    var key := KeyOf(scheme, c.objectName, c.signalName);
    if key in p.seen then p
    else Pass(Register(p.registry, c.objectName, c.signalName, BindingOf(c)), p.seen + {key})
  }

  function Fold(scheme: KeyScheme, p: Pass, cs: seq<Candidate>): Pass
    decreases |cs|
  {
    if cs == [] then p else Step(scheme, Fold(scheme, p, cs[..|cs| - 1]), cs[|cs| - 1])
  }

  /** The registry after creating the triggers of a description. */
  function Created(scheme: KeyScheme, doc: Option<seq<DomTrigger>>, objects: set<string>,
                   hasWindow: bool, reg: TriggerMap): TriggerMap
  {
    if !hasWindow || doc.None? || doc.value == [] then reg
    else Fold(scheme, Pass(reg, {}), Candidates(doc.value, objects)).registry
  }

  /** The first candidate with a given key. */
  function FirstWithKey(scheme: KeyScheme, cs: seq<Candidate>, key: Key): (r: Option<Candidate>)
    ensures r.Some? ==> r.value in cs && KeyOf(scheme, r.value.objectName, r.value.signalName) == key
    ensures r.None? ==> forall c :: c in cs ==> KeyOf(scheme, c.objectName, c.signalName) != key
    decreases |cs|
  {
    if cs == [] then None
    else
      var earlier := FirstWithKey(scheme, cs[..|cs| - 1], key);
      var last := cs[|cs| - 1];
      assert forall c :: c in cs ==> c in cs[..|cs| - 1] || c == last;
      if earlier.Some? then earlier
      else if KeyOf(scheme, last.objectName, last.signalName) == key then Some(last)
      else None
  }

  /** The first candidate for a signal of an object. */
  function FirstFor(cs: seq<Candidate>, objectName: string, signalName: string): Option<Candidate>
    decreases |cs|
  {
    if cs == [] then None
    else
      var earlier := FirstFor(cs[..|cs| - 1], objectName, signalName);
      var last := cs[|cs| - 1];
      if earlier.Some? then earlier
      else if last.objectName == objectName && last.signalName == signalName then Some(last)
      else None
  }

  // ---------------------------------------------------------------------
  // Loading a form
  // ---------------------------------------------------------------------

  /** What the root element of a form description leads to. */
  datatype LoadOutcome = NewUi | Updating | Failed(message: string)

  /** A root named ui (in any case) is a new form; update is an update of
      the shown form, known only to a loader with a window; anything else
      is an error. */
  function RootOutcome(rootName: string, hasWindow: bool, hasUi: bool): LoadOutcome {
    if hasWindow && ToLower(rootName) == "update" then
      (if hasUi then Updating else Failed("No loaded user interface to update"))
    else if ToLower(rootName) == "ui" then NewUi
    else Failed("Unexpected element")
  }

  // ---------------------------------------------------------------------
  // The registry
  // ---------------------------------------------------------------------

  class TriggerRegistry {
    var entries: TriggerMap

    constructor()
      ensures entries == map[]
    {
      entries := map[];
    }

    /** Deletes every trigger. */
    method DeleteAll()
      modifies this
      ensures entries == map[]
    {
      entries := map[];
    }

    /** Deletes the triggers of an object. */
    method DeleteObject(objectName: string)
      modifies this
      ensures entries == WithoutObject(old(entries), objectName)
    {
      if objectName !in entries {
        return;
      }
      entries := entries - {objectName};
    }

    /** Deletes the trigger of one signal of an object. */
    method DeleteSignal(objectName: string, signalName: string)
      modifies this
      ensures entries == WithoutSignal(old(entries), objectName, signalName)
    {
      if objectName !in entries {
        return;
      }
      var signals := entries[objectName];
      if signalName !in signals {
        return;
      }
      entries := entries[objectName := signals - {signalName}];
    }

    /** Creates the triggers of a form description whose existing objects
        are named by objects; the loader's own scheme is Concatenated. */
    method CreateTriggers(scheme: KeyScheme, doc: Option<seq<DomTrigger>>, objects: set<string>,
                          hasWindow: bool)
      modifies this
      ensures entries == Created(scheme, doc, objects, hasWindow, old(entries))
    {
      if !hasWindow || doc.None? {
        return;
      }
      var triggers := doc.value;
      if triggers == [] {
        return;
      }
      var seen: set<Key> := {};
      ghost var start := Pass(entries, seen);
      for i := 0 to |triggers|
        invariant Pass(entries, seen) == Fold(scheme, start, Candidates(triggers[..i], objects))
      {
        var t := triggers[i];
        CandidatesStep(triggers, i, objects);
        if t.objectName == [] || t.objectName !in objects || t.events == [] {
          assert Candidates(triggers[..i], objects) + [] == Candidates(triggers[..i], objects);
          continue;
        }
        seen := CreateEventTriggers(scheme, t.objectName, t.events, seen);
        FoldAppend(scheme, start, Candidates(triggers[..i], objects), TriggerCandidates(t, objects));
      }
      assert triggers[..|triggers|] == triggers;
    }

    /** The inner loop of trigger creation: binds the events of one
        existing object, skipping the keys seen already in this pass. */
    method CreateEventTriggers(scheme: KeyScheme, objectName: string, events: seq<DomEvent>,
                               seen0: set<Key>)
      returns (seen: set<Key>)
      modifies this
      ensures Pass(entries, seen) ==
        Fold(scheme, Pass(old(entries), seen0), EventCandidates(objectName, events))
    {
      seen := seen0;
      ghost var before := Pass(entries, seen);
      for j := 0 to |events|
        invariant Pass(entries, seen) == Fold(scheme, before, EventCandidates(objectName, events[..j]))
      {
        var e := events[j];
        EventCandidatesStep(objectName, events, j);
        var signal := Simplified(e.signal);
        if e.command == [] || signal == [] {
          continue;
        }
        var signalName := NormalizeSignal(signal);
        FoldStep(scheme, before, EventCandidates(objectName, events[..j]),
                 Candidate(objectName, signalName, e.command, e.action));
        var key := KeyOf(scheme, objectName, signalName);
        if key in seen {
          continue;
        }
        DeleteSignal(objectName, signalName);
        var signals := if objectName in entries then entries[objectName] else map[];
        entries := entries[objectName := signals[signalName := Binding(e.command, Triggers.CoercedAction(e.action))]];
        seen := seen + {key};
      }
      assert events[..|events|] == events;
    }

    /** Reads the root element of a form description: a new form deletes
        every trigger, an update keeps them. */
    method Load(rootName: string, hasWindow: bool, hasUi: bool) returns (outcome: LoadOutcome)
      modifies this
      ensures outcome == RootOutcome(rootName, hasWindow, hasUi)
      ensures entries == if outcome == NewUi then map[] else old(entries)
    {
      var name := ToLower(rootName);
      if hasWindow && name == "update" {
        if !hasUi {
          return Failed("No loaded user interface to update");
        }
        return Updating;
      } else if name == "ui" {
        DeleteAll();
        return NewUi;
      }
      return Failed("Unexpected element");
    }
  }

  // ---------------------------------------------------------------------
  // Properties
  // ---------------------------------------------------------------------

  lemma {:induction false} CandidatesOfEvents(objectName: string, events: seq<DomEvent>)
    ensures forall c :: c in EventCandidates(objectName, events) ==>
      c.objectName == objectName && c.command != [] &&
      EndsWith(c.signalName, Brackets) && NoSpace(c.signalName)
    decreases |events|
  {
    if events != [] {
      CandidatesOfEvents(objectName, events[..|events| - 1]);
      var e := events[|events| - 1];
      NormalizedShape(Simplified(e.signal));
    }
  }

  lemma CandidatesOfTrigger(t: DomTrigger, objects: set<string>)
    ensures forall c :: c in TriggerCandidates(t, objects) ==>
      c.objectName != [] && c.objectName in objects && c.command != [] &&
      EndsWith(c.signalName, Brackets) && NoSpace(c.signalName)
  {
    CandidatesOfEvents(t.objectName, t.events);
  }

  /** The candidates of the first i + 1 triggers. */
  lemma CandidatesStep(triggers: seq<DomTrigger>, i: nat, objects: set<string>)
    requires i < |triggers|
    ensures Candidates(triggers[..i + 1], objects) ==
      Candidates(triggers[..i], objects) + TriggerCandidates(triggers[i], objects)
  {
    assert triggers[..i + 1][..i] == triggers[..i];
  }

  /** The candidates of the first j + 1 events. */
  lemma EventCandidatesStep(objectName: string, events: seq<DomEvent>, j: nat)
    requires j < |events|
    ensures EventCandidates(objectName, events[..j + 1]) ==
      match EventCandidate(objectName, events[j])
      case None => EventCandidates(objectName, events[..j])
      case Some(c) => EventCandidates(objectName, events[..j]) + [c]
  {
    assert events[..j + 1][..j] == events[..j];
  }

  /** A pass over one more candidate takes one more step. */
  lemma FoldStep(scheme: KeyScheme, p: Pass, cs: seq<Candidate>, c: Candidate)
    ensures Fold(scheme, p, cs + [c]) == Step(scheme, Fold(scheme, p, cs), c)
  {
    assert (cs + [c])[..|cs|] == cs;
  }

  lemma {:induction false} FoldAppend(scheme: KeyScheme, p: Pass, a: seq<Candidate>, b: seq<Candidate>)
    ensures Fold(scheme, p, a + b) == Fold(scheme, Fold(scheme, p, a), b)
    decreases |b|
  {
    if b == [] {
      assert a + b == a;
    } else {
      assert (a + b)[..|a + b| - 1] == a + b[..|b| - 1];
      FoldAppend(scheme, p, a, b[..|b| - 1]);
    }
  }

  /** Deleting every trigger of an object removes exactly its entry. */
  lemma DeleteObjectOnly(reg: TriggerMap, objectName: string)
    ensures objectName !in WithoutObject(reg, objectName)
    ensures forall o :: o != objectName ==>
      (o in WithoutObject(reg, objectName) <==> o in reg) &&
      (o in reg ==> WithoutObject(reg, objectName)[o] == reg[o])
    ensures objectName !in reg ==> WithoutObject(reg, objectName) == reg
  {
  }

  /** Deleting the trigger of one signal removes exactly that entry; the
      object keeps its map even when it becomes empty, and nothing happens
      when either name is absent. */
  lemma DeleteSignalOnly(reg: TriggerMap, objectName: string, signalName: string)
    ensures WithoutSignal(reg, objectName, signalName).Keys == reg.Keys
    ensures Entry(WithoutSignal(reg, objectName, signalName), objectName, signalName) == None
    ensures forall o, s :: (o, s) != (objectName, signalName) ==>
      Entry(WithoutSignal(reg, objectName, signalName), o, s) == Entry(reg, o, s)
    ensures objectName !in reg || signalName !in reg[objectName] ==>
      WithoutSignal(reg, objectName, signalName) == reg
  {
  }

  /** Registering sets one entry and leaves every other one alone. */
  lemma RegisterOnly(reg: TriggerMap, objectName: string, signalName: string, b: Binding)
    ensures Register(reg, objectName, signalName, b).Keys == reg.Keys + {objectName}
    ensures Entry(Register(reg, objectName, signalName, b), objectName, signalName) == Some(b)
    ensures forall o, s :: (o, s) != (objectName, signalName) ==>
      Entry(Register(reg, objectName, signalName, b), o, s) == Entry(reg, o, s)
  {
    DeleteSignalOnly(reg, objectName, signalName);
  }

  /** A normalised signal name ends in brackets and has no whitespace. */
  lemma NormalizedShape(signal: string)
    ensures EndsWith(Normalized(signal), Brackets) && NoSpace(Normalized(signal))
  {
    var name := RemoveSpaces(signal);
    if !EndsWith(name, Brackets) {
      var r := name + Brackets;
      assert r[|r| - |Brackets|..] == Brackets;
      assert forall i :: 0 <= i < |r| ==> r[i] == (if i < |name| then name[i] else Brackets[i - |name|]);
    }
  }

  /** Normalising twice is normalising once. */
  lemma NormalizedIdempotent(signal: string)
    ensures Normalized(Normalized(signal)) == Normalized(signal)
  {
    NormalizedShape(signal);
    RemoveSpacesOfNoSpace(Normalized(signal));
  }

  /** Collapsing whitespace first does not change the normalised name, and
      a signal is blank exactly when it has no character but whitespace. */
  lemma NormalizedOfSimplified(signal: string)
    ensures Normalized(Simplified(signal)) == Normalized(signal)
    ensures Simplified(signal) == [] <==> RemoveSpaces(signal) == []
  {
    SimplifiedKeepsNonSpaces(signal);
  }

  /** One pass binds a signal of an object to the first candidate with
      that signal's key, when that candidate is for the same object and
      signal; when the first candidate with the key is for another object
      and signal, or the key was seen before the pass, the entry is left
      alone.  The key is seen afterwards exactly when it was seen before or
      some candidate has it. */
  lemma {:induction false} FoldEntry(scheme: KeyScheme, p: Pass, cs: seq<Candidate>,
                                     objectName: string, signalName: string)
    ensures var key := KeyOf(scheme, objectName, signalName);
      var q := Fold(scheme, p, cs);
      && (key in q.seen <==> key in p.seen || FirstWithKey(scheme, cs, key).Some?)
      && Entry(q.registry, objectName, signalName) ==
           if key in p.seen then Entry(p.registry, objectName, signalName)
           else match FirstWithKey(scheme, cs, key)
                case None => Entry(p.registry, objectName, signalName)
                case Some(c) =>
                  if c.objectName == objectName && c.signalName == signalName then Some(BindingOf(c))
                  else Entry(p.registry, objectName, signalName)
    ensures p.registry.Keys <= Fold(scheme, p, cs).registry.Keys
    decreases |cs|
  {
    if cs != [] {
      var init := cs[..|cs| - 1];
      var c := cs[|cs| - 1];
      FoldEntry(scheme, p, init, objectName, signalName);
      var q := Fold(scheme, p, init);
      if KeyOf(scheme, c.objectName, c.signalName) !in q.seen {
        RegisterOnly(q.registry, c.objectName, c.signalName, BindingOf(c));
      }
    }
  }

  /** After creating the triggers of a description, a signal of an object
      is bound to the first candidate with its key when that candidate is
      for the same object and signal, and keeps its old binding otherwise;
      no object is removed. */
  lemma CreatedEntry(scheme: KeyScheme, doc: Option<seq<DomTrigger>>, objects: set<string>,
                     hasWindow: bool, reg: TriggerMap, objectName: string, signalName: string)
    ensures reg.Keys <= Created(scheme, doc, objects, hasWindow, reg).Keys
    ensures hasWindow && doc.Some? ==>
      Entry(Created(scheme, doc, objects, hasWindow, reg), objectName, signalName) ==
        match FirstWithKey(scheme, Candidates(doc.value, objects), KeyOf(scheme, objectName, signalName))
        case None => Entry(reg, objectName, signalName)
        case Some(c) =>
          if c.objectName == objectName && c.signalName == signalName then Some(BindingOf(c))
          else Entry(reg, objectName, signalName)
    ensures !hasWindow || doc.None? ==> Created(scheme, doc, objects, hasWindow, reg) == reg
  {
    if hasWindow && doc.Some? {
      FoldEntry(scheme, Pass(reg, {}), Candidates(doc.value, objects), objectName, signalName);
    }
  }

  /** With paired keys the first candidate with the key of a signal of an
      object is its first candidate. */
  lemma {:induction false} FirstWithPairKey(cs: seq<Candidate>, objectName: string, signalName: string)
    ensures FirstWithKey(Paired, cs, PairKey(objectName, signalName)) == FirstFor(cs, objectName, signalName)
    decreases |cs|
  {
    if cs != [] {
      FirstWithPairKey(cs[..|cs| - 1], objectName, signalName);
    }
  }

  /** With paired keys, creating the triggers of a description binds each
      signal of each object to its first candidate in the description,
      replacing what was registered before; every other entry, and every
      object, is kept. */
  lemma PairedCreatedEntry(doc: Option<seq<DomTrigger>>, objects: set<string>, hasWindow: bool,
                           reg: TriggerMap, objectName: string, signalName: string)
    ensures reg.Keys <= Created(Paired, doc, objects, hasWindow, reg).Keys
    ensures hasWindow && doc.Some? ==>
      Entry(Created(Paired, doc, objects, hasWindow, reg), objectName, signalName) ==
        match FirstFor(Candidates(doc.value, objects), objectName, signalName)
        case None => Entry(reg, objectName, signalName)
        case Some(c) => Some(BindingOf(c))
    ensures !hasWindow || doc.None? ==> Created(Paired, doc, objects, hasWindow, reg) == reg
  {
    CreatedEntry(Paired, doc, objects, hasWindow, reg, objectName, signalName);
    if hasWindow && doc.Some? {
      FirstWithPairKey(Candidates(doc.value, objects), objectName, signalName);
    }
  }

  /** Only a ui root deletes the triggers: an update, or an error, keeps
      them. */
  lemma OnlyNewUiClears(rootName: string, hasWindow: bool, hasUi: bool)
    ensures RootOutcome(rootName, hasWindow, hasUi) == NewUi <==> ToLower(rootName) == "ui"
    ensures RootOutcome(rootName, hasWindow, hasUi) == Updating <==>
      hasWindow && hasUi && ToLower(rootName) == "update"
  {
  }

  // ---------------------------------------------------------------------
  // Keys made by concatenation
  // ---------------------------------------------------------------------

  /** No two candidates for different signals or objects concatenate to
      the same text. */
  predicate NoCollision(cs: seq<Candidate>) {
    forall c1, c2 :: c1 in cs && c2 in cs && c1.objectName + c1.signalName == c2.objectName + c2.signalName
      ==> c1.objectName == c2.objectName && c1.signalName == c2.signalName
  }

  /** Without collisions the first candidate with the concatenated key of
      a signal of an object is its first candidate, if it has one. */
  lemma {:induction false} FirstWithTextKey(cs: seq<Candidate>, objectName: string, signalName: string)
    requires NoCollision(cs)
    ensures FirstFor(cs, objectName, signalName) ==
      match FirstWithKey(Concatenated, cs, TextKey(objectName + signalName))
      case None => None
      case Some(c) => if c.objectName == objectName && c.signalName == signalName then Some(c) else None
    decreases |cs|
  {
    if cs != [] {
      var init := cs[..|cs| - 1];
      var last := cs[|cs| - 1];
      assert forall c :: c in init ==> c in cs;
      FirstWithTextKey(init, objectName, signalName);
    }
  }

  /** Concatenated keys bind what paired keys bind unless two candidates
      of the description collide. */
  lemma ConcatenatedAsIntended(doc: Option<seq<DomTrigger>>, objects: set<string>, hasWindow: bool,
                               reg: TriggerMap, objectName: string, signalName: string)
    requires doc.Some? ==> NoCollision(Candidates(doc.value, objects))
    ensures Entry(Created(Concatenated, doc, objects, hasWindow, reg), objectName, signalName) ==
      Entry(Created(Paired, doc, objects, hasWindow, reg), objectName, signalName)
  {
    CreatedEntry(Concatenated, doc, objects, hasWindow, reg, objectName, signalName);
    PairedCreatedEntry(doc, objects, hasWindow, reg, objectName, signalName);
    if hasWindow && doc.Some? {
      FirstWithTextKey(Candidates(doc.value, objects), objectName, signalName);
    }
  }

  /** With concatenated keys, object a with signal bc() and object ab with
      signal c() share a key, so the second trigger is dropped as if it
      repeated the first; with paired keys both are bound. */
  lemma ConcatenatedKeysCollide(a: string, ab: string, bc: string, c: string)
    requires a == "a" && ab == "ab" && bc == "bc()" && c == "c()"
    ensures var first := Candidate(a, bc, "x", "");
      var second := Candidate(ab, c, "y", "");
      && Entry(Fold(Concatenated, Pass(map[], {}), [first, second]).registry, ab, c) == None
      && Entry(Fold(Paired, Pass(map[], {}), [first, second]).registry, ab, c) ==
           Some(Binding("y", Triggers.Execute))
  {
    var first := Candidate(a, bc, "x", "");
    var second := Candidate(ab, c, "y", "");
    var both := [first, second];
    assert both[..1] == [first] && [first][..0] == [] && both[1] == second;
    var empty := Pass(map[], {});
    var p1 := Step(Concatenated, empty, first);
    assert Fold(Concatenated, empty, [first]) == p1;
    assert a + bc == ab + c;
    assert KeyOf(Concatenated, ab, c) in p1.seen;
    assert Fold(Concatenated, empty, both) == p1;
    RegisterOnly(map[], a, bc, BindingOf(first));
    var q1 := Step(Paired, empty, first);
    assert Fold(Paired, empty, [first]) == q1;
    assert KeyOf(Paired, ab, c) !in q1.seen;
    RegisterOnly(q1.registry, ab, c, BindingOf(second));
  }
}
