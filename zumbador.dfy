/** The non-blocking buzzer melody of the beacon (class Zumbador).
 *
 *  The hardware calls are replaced as follows: `millis()` becomes the parameter
 *  `now`, a 32-bit unsigned clock reading; `tone(pin, f)` and `noTone(pin)`
 *  append a `Tone` or `NoTone` event to a ghost log; `pinMode` is not modelled.
 *
 *  The pure functions over `BuzzerState` are the specification of the class:
 *  each method of `Zumbador` is proved to move its fields exactly as the
 *  matching function does, and the lemmas about several updates in a row are
 *  stated over those functions.
 */
module Buzzer {

  /** Number of values of Arduino's 32-bit `unsigned long`. */
  const ULongModulus: int := 0x1_0000_0000

  /** An `unsigned long` value, as returned by `millis()`. */
  type ULong = x: int | 0 <= x < 0x1_0000_0000

  /** Length of both melody tables. */
  const NoteCount: int := 8

  /** Frequency, in hertz, of each note of the melody. */
  const Melody: seq<int> := [262, 294, 330, 349, 392, 440, 494, 523]

  /** How long, in milliseconds, each note lasts before the next one. */
  const NoteDurations: seq<int> := [300, 300, 300, 300, 300, 300, 300, 600]

  /** A write to the buzzer pin. */
  datatype Event = Tone(pin: int, frequency: int) | NoTone(pin: int)

  /** The three mutable fields of a Zumbador. */
  datatype BuzzerState = BuzzerState(playing: bool, note: int, lastNoteTime: ULong)
  {
    /** The note index can always be used to read both tables. */
    predicate Valid() { 0 <= note < NoteCount }
  }

  /** `currentTime - lastNoteTime` in `unsigned long` arithmetic: the
   *  difference wraps modulo 2^32 when the clock has rolled over. */
  function Elapsed(now: ULong, last: ULong): (e: ULong)
    ensures last <= now ==> e == now - last
    ensures now < last ==> e == ULongModulus - last + now
  {
    (now - last) % ULongModulus
  }

  /** The state the constructor leaves. */
  function Initial(): BuzzerState
  {
    BuzzerState(false, 0, 0)
  }

  /** `iniciar`: stop and rewind, keeping the time of the last note. */
  function Begin(s: BuzzerState): BuzzerState
  {
    s.(playing := false, note := 0)
  }

  /** `activar`: start playing from note 0 at time `now`. */
  function Activate(s: BuzzerState, now: ULong): BuzzerState
  {
    BuzzerState(true, 0, now)
  }

  /** `desactivar`: stop playing; note index and time are kept. */
  function Deactivate(s: BuzzerState): BuzzerState
  {
    s.(playing := false)
  }

  /** Whether `update` at time `now` moves on to the next note. */
  predicate Advances(s: BuzzerState, now: ULong)
    requires s.Valid()
  {
    s.playing && Elapsed(now, s.lastNoteTime) >= NoteDurations[s.note]
  }

  /** The state `update` leaves when called at time `now`: it advances at
   *  most one note, restamps the time only when it advances, and never
   *  starts or stops the melody. */
  function Step(s: BuzzerState, now: ULong): (r: BuzzerState)
    requires s.Valid()
    ensures r.Valid() && r.playing == s.playing
    ensures r == s || (r.note == (s.note + 1) % NoteCount && r.lastNoteTime == now)
  {
    if Advances(s, now) then s.(note := (s.note + 1) % NoteCount, lastNoteTime := now)
    else s
  }

  /** The pin writes `update` makes at time `now`: none when the state is
   *  kept, otherwise silence followed by the tone of the new note. */
  function StepEvents(pin: int, s: BuzzerState, now: ULong): (ev: seq<Event>)
    requires s.Valid()
    ensures ev == [] <==> Step(s, now) == s
    ensures ev != [] ==> ev == [NoTone(pin), Tone(pin, Melody[Step(s, now).note])]
  {
    if Advances(s, now) then [NoTone(pin), Tone(pin, Melody[(s.note + 1) % NoteCount])]
    else []
  }

  /** The state after calling `update` once per clock reading in `clock`. */
  function Run(s: BuzzerState, clock: seq<ULong>): BuzzerState
    requires s.Valid()
    decreases |clock|
  {
    if clock == [] then s else Run(Step(s, clock[0]), clock[1..])
  }

  /** The pin writes made by those calls, in order. */
  function RunEvents(pin: int, s: BuzzerState, clock: seq<ULong>): seq<Event>
    requires s.Valid()
    decreases |clock|
  {
    if clock == [] then []
    else StepEvents(pin, s, clock[0]) + RunEvents(pin, Step(s, clock[0]), clock[1..])
  }

  /** Every call of the run finds the current note's duration elapsed. */
  predicate Advancing(s: BuzzerState, clock: seq<ULong>)
    requires s.Valid()
    decreases |clock|
  {
    clock == [] || (Advances(s, clock[0]) && Advancing(Step(s, clock[0]), clock[1..]))
  }

  /** The clock reading at which the current note's duration has exactly
   *  elapsed, wrapped like `millis()`. */
  function DueTime(s: BuzzerState): ULong
    requires s.Valid()
  {
    (s.lastNoteTime + NoteDurations[s.note]) % ULongModulus
  }

  /** `k` clock readings, each taken exactly when the note then sounding is due. */
  function OnSchedule(s: BuzzerState, k: nat): seq<ULong>
    requires s.Valid()
    decreases k
  {
    if k == 0 then [] else [DueTime(s)] + OnSchedule(Step(s, DueTime(s)), k - 1)
  }

  /** The writes of `k` successive note changes starting after note `n`. */
  function Tune(pin: int, n: int, k: nat): seq<Event>
    requires 0 <= n < NoteCount
    decreases k
  {
    if k == 0 then []
    else [NoTone(pin), Tone(pin, Melody[(n + 1) % NoteCount])] + Tune(pin, (n + 1) % NoteCount, k - 1)
  }

  // ---------------------------------------------------------------------
  // Properties of single operations

  /** Stopping twice is stopping once, and an update after stopping is a no-op. */
  lemma DeactivateIdempotent(pin: int, s: BuzzerState, now: ULong)
    requires s.Valid()
    ensures Deactivate(Deactivate(s)) == Deactivate(s)
    ensures Step(Deactivate(s), now) == Deactivate(s)
    ensures StepEvents(pin, Deactivate(s), now) == []
  {
  }

  /** However late `update` reads the clock after a note fell due (any delay
   *  `d` from the note's duration up to one full 32-bit period), the wrapped
   *  subtraction measures exactly `d`, so the update advances; in particular a
   *  reading taken after `millis()` has rolled over past zero does not stall
   *  the melody. */
  lemma RolloverDoesNotStall(s: BuzzerState, d: int)
    requires s.Valid() && s.playing
    requires NoteDurations[s.note] <= d < ULongModulus
    ensures Elapsed((s.lastNoteTime + d) % ULongModulus, s.lastNoteTime) == d
    ensures Advances(s, (s.lastNoteTime + d) % ULongModulus)
    ensures s.lastNoteTime + d >= ULongModulus ==> (s.lastNoteTime + d) % ULongModulus < s.lastNoteTime
  {
  }

  /** `activar` writes nothing to the pin, and neither does any `update`
   *  while less than the first duration (300 ms) has elapsed; the first write
   *  after `activar` is `noTone` followed by note 1, not note 0. Since
   *  `activar` itself never calls `noTone`, a tone already sounding keeps
   *  sounding through that window. */
  lemma ActivationWritesNothing(pin: int, s: BuzzerState, start: ULong, now: ULong)
    ensures Activate(s, start).Valid()
    ensures Elapsed(now, start) < NoteDurations[0] ==>
      Step(Activate(s, start), now) == Activate(s, start) && StepEvents(pin, Activate(s, start), now) == []
    ensures Elapsed(now, start) >= NoteDurations[0] ==>
      StepEvents(pin, Activate(s, start), now) == [NoTone(pin), Tone(pin, Melody[1])]
  {
  }

  // ---------------------------------------------------------------------
  // Properties of runs of updates

  /** No sequence of updates starts or stops the melody. */
  lemma {:induction false} RunKeepsPlaying(s: BuzzerState, clock: seq<ULong>)
    requires s.Valid()
    ensures Run(s, clock).Valid()
    ensures Run(s, clock).playing == s.playing
    decreases |clock|
  {
    if clock != [] {
      RunKeepsPlaying(Step(s, clock[0]), clock[1..]);
    }
  }

  /** Moving on one note and then `k` more is moving on `k + 1`. */
  lemma NextNoteShift(n: int, k: nat)
    requires 0 <= n < NoteCount
    ensures ((n + 1) % NoteCount + k) % NoteCount == (n + 1 + k) % NoteCount
  {
    if n + 1 == NoteCount {
      assert (n + 1) % NoteCount == 0;
      assert n + 1 + k == k + NoteCount;
    }
  }

  /** A run of `k` advancing updates moves the note index on by `k` modulo 8. */
  lemma {:induction false} AdvancingRunNote(s: BuzzerState, clock: seq<ULong>)
    requires s.Valid() && Advancing(s, clock)
    ensures Run(s, clock).note == (s.note + |clock|) % NoteCount
    decreases |clock|
  {
    if clock == [] {
      assert (s.note + 0) % NoteCount == s.note;
    } else {
      var t := Step(s, clock[0]);
      assert Advances(s, clock[0]);
      assert t.note == (s.note + 1) % NoteCount;
      assert Run(s, clock) == Run(t, clock[1..]);
      AdvancingRunNote(t, clock[1..]);
      NextNoteShift(s.note, |clock| - 1);
    }
  }

  /** A run of `k` advancing updates sounds the next `k` notes of the melody
   *  in order, each preceded by silencing the pin. */
  lemma {:induction false} AdvancingRunEvents(pin: int, s: BuzzerState, clock: seq<ULong>)
    requires s.Valid() && Advancing(s, clock)
    ensures RunEvents(pin, s, clock) == Tune(pin, s.note, |clock|)
    decreases |clock|
  {
    if clock != [] {
      var t := Step(s, clock[0]);
      assert Advances(s, clock[0]);
      assert t.note == (s.note + 1) % NoteCount;
      var head := [NoTone(pin), Tone(pin, Melody[t.note])];
      assert StepEvents(pin, s, clock[0]) == head;
      assert RunEvents(pin, s, clock) == head + RunEvents(pin, t, clock[1..]);
      assert Tune(pin, s.note, |clock|) == head + Tune(pin, t.note, |clock| - 1);
      AdvancingRunEvents(pin, t, clock[1..]);
    }
  }

  /** Eight advancing updates, or any multiple of eight, bring the note
   *  index back where it was: the melody loops and never stops by itself. */
  lemma MelodyLoops(s: BuzzerState, clock: seq<ULong>)
    requires s.Valid() && Advancing(s, clock) && |clock| % NoteCount == 0
    ensures Run(s, clock).note == s.note
    ensures Run(s, clock).playing == s.playing
  {
    AdvancingRunNote(s, clock);
    RunKeepsPlaying(s, clock);
    MultipleOfNoteCount(s.note, |clock|);
  }

  /** Adding a multiple of eight does not change a note index modulo 8. */
  lemma MultipleOfNoteCount(n: int, k: nat)
    requires 0 <= n < NoteCount && k % NoteCount == 0
    ensures (n + k) % NoteCount == n
  {
    var q := k / NoteCount;
    assert k == NoteCount * q;
  }

  /** Readings taken exactly on schedule advance at every update, whatever
   *  the clock value and across rollovers. */
  lemma {:induction false} OnScheduleAdvances(s: BuzzerState, k: nat)
    requires s.Valid() && s.playing
    ensures |OnSchedule(s, k)| == k
    ensures Advancing(s, OnSchedule(s, k))
    decreases k
  {
    if k > 0 {
      var d := NoteDurations[s.note];
      RolloverDoesNotStall(s, d);
      OnScheduleAdvances(Step(s, DueTime(s)), k - 1);
    }
  }

  /** The `i`-th note change of a tune silences the pin and then sounds
   *  note `n + i + 1` (modulo 8). */
  lemma {:induction false} TuneAt(pin: int, n: int, k: nat, i: nat)
    requires 0 <= n < NoteCount && i < k
    ensures |Tune(pin, n, k)| == 2 * k
    ensures Tune(pin, n, k)[2 * i] == NoTone(pin)
    ensures Tune(pin, n, k)[2 * i + 1] == Tone(pin, Melody[(n + i + 1) % NoteCount])
    decreases k
  {
    var n' := (n + 1) % NoteCount;
    var head := [NoTone(pin), Tone(pin, Melody[n'])];
    var rest := Tune(pin, n', k - 1);
    assert Tune(pin, n, k) == head + rest;
    TuneLength(pin, n', k - 1);
    if i > 0 {
      TuneAt(pin, n', k - 1, i - 1);
      NextNoteShift(n, i);
      assert rest[2 * (i - 1) + 1] == Tone(pin, Melody[(n + i + 1) % NoteCount]);
    }
  }

  /** A tune of `k` note changes is `2k` writes long. */
  lemma {:induction false} TuneLength(pin: int, n: int, k: nat)
    requires 0 <= n < NoteCount
    ensures |Tune(pin, n, k)| == 2 * k
    decreases k
  {
    if k > 0 {
      TuneLength(pin, (n + 1) % NoteCount, k - 1);
    }
  }

  /** Updates on schedule after `activar` play the melody cyclically from
   *  note 1: the `i`-th note change silences the pin and sounds note
   *  `(i + 1) % 8`, so note 0 is first heard at the eighth change and once
   *  in every round of eight after that. */
  lemma TonesAfterActivation(pin: int, s: BuzzerState, start: ULong, k: nat)
    ensures |RunEvents(pin, Activate(s, start), OnSchedule(Activate(s, start), k))| == 2 * k
    ensures forall i :: 0 <= i < k ==>
      RunEvents(pin, Activate(s, start), OnSchedule(Activate(s, start), k))[2 * i] == NoTone(pin) &&
      RunEvents(pin, Activate(s, start), OnSchedule(Activate(s, start), k))[2 * i + 1]
        == Tone(pin, Melody[(i + 1) % NoteCount])
  {
    var a := Activate(s, start);
    OnScheduleAdvances(a, k);
    AdvancingRunEvents(pin, a, OnSchedule(a, k));
    TuneLength(pin, 0, k);
    forall i | 0 <= i < k
      ensures Tune(pin, 0, k)[2 * i] == NoTone(pin)
      ensures Tune(pin, 0, k)[2 * i + 1] == Tone(pin, Melody[(i + 1) % NoteCount])
    {
      TuneAt(pin, 0, k, i);
    }
  }

  // ---------------------------------------------------------------------
  // The buzzer object

  /** A buzzer on one pin, playing the fixed melody without ever blocking. */
  class Zumbador {
    const pin: int
    var isPlaying: bool
    var lastNoteTime: ULong
    var currentNote: int

    /** Every write made to the pin so far. */
    ghost var events: seq<Event>

    ghost predicate Valid()
      reads this
    {
      State().Valid()
    }

    ghost function State(): BuzzerState
      reads this
    {
      BuzzerState(isPlaying, currentNote, lastNoteTime)
    }

    constructor (pin: int)
      ensures Valid() && this.pin == pin
      ensures State() == Initial()
      ensures !isPlaying && currentNote == 0 && lastNoteTime == 0
      ensures events == []
    {
      this.pin := pin;
      isPlaying := false;
      lastNoteTime := 0;
      currentNote := 0;
      events := [];
    }

    /** `iniciar`: the pin is configured as an output (not modelled), the
     *  buzzer is stopped and rewound; the time of the last note is kept. */
    method Iniciar()
      modifies this
      ensures Valid() && State() == Begin(old(State()))
      ensures !isPlaying && currentNote == 0 && lastNoteTime == old(lastNoteTime)
      ensures events == old(events)
    {
      isPlaying := false;
      currentNote := 0;
    }

    /** `activar`: start the melody at note 0, timed from `now`; no tone is
     *  sounded here. */
    method Activar(now: ULong)
      modifies this
      ensures Valid() && State() == Activate(old(State()), now)
      ensures isPlaying && currentNote == 0 && lastNoteTime == now
      ensures events == old(events)
    {
      isPlaying := true;
      currentNote := 0;
      lastNoteTime := now;
    }

    /** `desactivar`: stop the melody and silence the pin once. */
    method Desactivar()
      requires Valid()
      modifies this
      ensures Valid() && State() == Deactivate(old(State()))
      ensures !isPlaying && currentNote == old(currentNote) && lastNoteTime == old(lastNoteTime)
      ensures events == old(events) + [NoTone(pin)]
    {
      isPlaying := false;
      events := events + [NoTone(pin)];
    }

    /** `update`: when playing and the current note's duration has elapsed
     *  (in wrapping 32-bit time), silence the pin, move to the next note,
     *  sound it and restamp the time; otherwise change nothing. */
    method Update(now: ULong)
      requires Valid()
      modifies this
      ensures Valid()
      ensures State() == Step(old(State()), now)
      ensures events == old(events) + StepEvents(pin, old(State()), now)
      ensures !old(isPlaying) ==> unchanged(this)
      ensures old(isPlaying) && Elapsed(now, old(lastNoteTime)) < NoteDurations[old(currentNote)]
              ==> unchanged(this)
      ensures old(isPlaying) && Elapsed(now, old(lastNoteTime)) >= NoteDurations[old(currentNote)]
              ==> isPlaying && currentNote == (old(currentNote) + 1) % NoteCount && lastNoteTime == now
                  && events == old(events) + [NoTone(pin), Tone(pin, Melody[currentNote])]
    {
      if !isPlaying {
        return;
      }
      var currentTime := now;
      if Elapsed(currentTime, lastNoteTime) >= NoteDurations[currentNote] {
        events := events + [NoTone(pin)];
        currentNote := (currentNote + 1) % NoteCount;
        events := events + [Tone(pin, Melody[currentNote])];
        lastNoteTime := currentTime;
      }
    }

    /** `estaActivo`: whether the melody is playing. */
    method EstaActivo() returns (active: bool)
      ensures active == isPlaying
    {
      active := isPlaying;
    }
  }
}
