/**
 * The key table of the piano: a key is a three-character string made of a
 * note letter, an accidental ('#' sharp, 'b' flat, '-' natural) and an octave
 * digit, e.g. "A-4" or "C#3". Each key has an integer semitone position;
 * A-4 sits at position 49 and sounds at 440 Hz, and every semitone step
 * multiplies the frequency by 2^(1/12).
 */
module Keys {

  const Notes: seq<char> := ['A', 'B', 'C', 'D', 'E', 'F', 'G']
  const Octaves: seq<char> := ['0', '1', '2', '3', '4', '5', '6', '7', '8']
  const Accidentals: seq<char> := ['#', 'b', '-']

  /** The reference pitch and its position. */
  const A4Pitch: int := 440
  const A4Position: int := 49

  predicate IsKey(s: string) {
    |s| == 3 && s[0] in Notes && s[1] in Accidentals && s[2] in Octaves
  }

  type Key = s: string | IsKey(s) witness "A-0"

  /** The template literal `${note}${accidental}${octave}`. */
  function MakeKey(note: char, accidental: char, octave: char): string {
    [note, accidental, octave]
  }

  function GetNote(key: Key): (n: char)
    ensures n in Notes
  {
    key[0]
  }

  function GetAccidental(key: Key): (a: char)
    ensures a in Accidentals
  {
    key[1]
  }

  function GetOctave(key: Key): (o: char)
    ensures o in Octaves
  {
    key[2]
  }

  /** Distance of each natural note from the A of the same octave number. */
  function NoteOffset(note: char): int
    requires note in Notes
  {
    if note == 'A' then 0
    else if note == 'B' then 2
    else if note == 'C' then -9
    else if note == 'D' then -7
    else if note == 'E' then -5
    else if note == 'F' then -4
    else -2
  }

  /** `Number(octave)` for an octave digit. */
  function OctaveNumber(octave: char): (n: nat)
    requires octave in Octaves
    ensures n <= 8
    ensures Octaves[n] == octave
  {
    (octave as int) - ('0' as int)
  }

  /** Where a note letter sits in `Notes`. */
  function NoteIndex(note: char): (n: nat)
    requires note in Notes
    ensures n < 7 && Notes[n] == note
  {
    if note == 'A' then 0
    else if note == 'B' then 1
    else if note == 'C' then 2
    else if note == 'D' then 3
    else if note == 'E' then 4
    else if note == 'F' then 5
    else 6
  }

  /** Where an accidental sits in `Accidentals`. */
  function AccidentalIndex(accidental: char): (a: nat)
    requires accidental in Accidentals
    ensures a < 3 && Accidentals[a] == accidental
  {
    if accidental == '#' then 0
    else if accidental == 'b' then 1
    else 2
  }

  function AccidentalOffset(accidental: char): int {
    if accidental == '#' then 1
    else if accidental == 'b' then -1
    else 0
  }

  /** The semitone position of a key on the 88-key numbering (A-0 is 1). */
  function Position(key: Key): (p: int)
    ensures -9 <= p <= 100
  {
    var aPosition := 12 * OctaveNumber(GetOctave(key)) + 1;
    var adjustedPosition := aPosition + NoteOffset(GetNote(key));
    adjustedPosition + AccidentalOffset(GetAccidental(key))
  }

  /**
   * The exponent of the pitch table: the frequency of `key` is
   * A4Pitch * 2^(FrequencyExponent(key) / 12).
   */
  function FrequencyExponent(key: Key): int {
    Position(key) - A4Position
  }

  /** `Array.prototype.flatMap` on sequences. */
  function FlatMap<A, B>(xs: seq<A>, f: A -> seq<B>): seq<B> {
    if xs == [] then [] else f(xs[0]) + FlatMap(xs[1..], f)
  }

  /** The innermost `flatMap`: the keys of one note in one octave, accidental by accidental. */
  function AccidentalBlock(accidentals: seq<char>, note: char, octave: char): seq<string> {
    FlatMap(accidentals, accidental => [MakeKey(note, accidental, octave)])
  }

  /** The middle `flatMap`: the keys of one octave, note by note. */
  function NoteBlock(notes: seq<char>, accidentals: seq<char>, octave: char): seq<string> {
    FlatMap(notes, note => AccidentalBlock(accidentals, note, octave))
  }

  /** The outer `flatMap` over the octaves; `AllKeys` applies it to the three constant lists. */
  function Enumerate(octaves: seq<char>, notes: seq<char>, accidentals: seq<char>): seq<string> {
    FlatMap(octaves, octave => NoteBlock(notes, accidentals, octave))
  }

  /** Every key, octave by octave, then note by note, then accidental by accidental. */
  function AllKeys(): seq<string> {
    Enumerate(Octaves, Notes, Accidentals)
  }

  /** The actions of the wire protocol. */
  const PressAction: string := "press"
  const ReleaseAction: string := "release"

  /**
   * A press or release message exchanged with the peer, before it is
   * formatted as text (`press|key=C-4&time=12.5`) or after it is parsed.
   */
  datatype Message = Message(action: string, key: Key, time: real)

  function IsBlackKey(key: Key): bool {
    key[1] in ['#', 'b']
  }

  // ---------------------------------------------------------------------------
  // Properties of the position numbering

  /** The octave digit at index o reads as the number o. */
  lemma OctaveDigit(o: nat)
    requires o < 9
    ensures OctaveNumber(Octaves[o]) == o
  {
  }

  /** The position of note n with accidental a in the octave numbered o. */
  lemma PositionAt(n: nat, a: nat, o: nat)
    requires n < 7 && a < 3 && o < 9
    ensures IsKey(MakeKey(Notes[n], Accidentals[a], Octaves[o]))
    ensures Position(MakeKey(Notes[n], Accidentals[a], Octaves[o]))
         == 12 * o + 1 + NoteOffset(Notes[n]) + AccidentalOffset(Accidentals[a])
  {
    OctaveDigit(o);
  }

  /** The anchors of the table: A-4 is the reference pitch, C-4 and A-3 below it. */
  lemma ReferencePositions()
    ensures Position("A-4") == A4Position && FrequencyExponent("A-4") == 0
    ensures Position("C-4") == 40 && FrequencyExponent("C-4") == -9
    ensures Position("A-3") == 37 && FrequencyExponent("A-3") == -12
  {
  }

  /** The same note one octave up is twelve semitones higher. */
  lemma OctaveUp(note: char, accidental: char, o: nat)
    requires note in Notes && accidental in Accidentals && o < 8
    ensures Position(MakeKey(note, accidental, Octaves[o + 1]))
         == Position(MakeKey(note, accidental, Octaves[o])) + 12
  {
    PositionAt(NoteIndex(note), AccidentalIndex(accidental), o);
    PositionAt(NoteIndex(note), AccidentalIndex(accidental), o + 1);
  }

  /** Flat, natural and sharp of one note are consecutive semitones. */
  lemma AccidentalOrder(note: char, octave: char)
    requires note in Notes && octave in Octaves
    ensures Position(MakeKey(note, '-', octave)) == Position(MakeKey(note, 'b', octave)) + 1
    ensures Position(MakeKey(note, '#', octave)) == Position(MakeKey(note, '-', octave)) + 1
  {
  }

  /** B# sounds as the C of the next octave. */
  lemma BSharpIsC(o: nat)
    requires o < 8
    ensures Position(MakeKey('B', '#', Octaves[o])) == Position(MakeKey('C', '-', Octaves[o + 1]))
  {
    PositionAt(1, 0, o);
    PositionAt(2, 2, o + 1);
  }

  /** E# sounds as the F of the same octave. */
  lemma ESharpIsF(o: nat)
    requires o < 9
    ensures Position(MakeKey('E', '#', Octaves[o])) == Position(MakeKey('F', '-', Octaves[o]))
  {
    PositionAt(4, 0, o);
    PositionAt(5, 2, o);
  }

  /** Cb sounds as the B of the octave below. */
  lemma CFlatIsB(o: nat)
    requires o < 8
    ensures Position(MakeKey('C', 'b', Octaves[o + 1])) == Position(MakeKey('B', '-', Octaves[o]))
  {
    PositionAt(2, 1, o + 1);
    PositionAt(1, 2, o);
  }

  /** Fb sounds as the E of the same octave. */
  lemma FFlatIsE(o: nat)
    requires o < 9
    ensures Position(MakeKey('F', 'b', Octaves[o])) == Position(MakeKey('E', '-', Octaves[o]))
  {
    PositionAt(5, 1, o);
    PositionAt(4, 2, o);
  }

  /** Reading the components back from a built key gives them back. */
  lemma MakeKeyRoundTrip(note: char, accidental: char, octave: char)
    requires note in Notes && accidental in Accidentals && octave in Octaves
    ensures IsKey(MakeKey(note, accidental, octave))
    ensures GetNote(MakeKey(note, accidental, octave)) == note
    ensures GetAccidental(MakeKey(note, accidental, octave)) == accidental
    ensures GetOctave(MakeKey(note, accidental, octave)) == octave
  {
  }

  /** And every key is built from its components. */
  lemma KeyFromComponents(key: Key)
    ensures MakeKey(GetNote(key), GetAccidental(key), GetOctave(key)) == key
  {
  }

  /** A key is black exactly when it carries a sharp or a flat. */
  lemma BlackKeyIffAccidental(key: Key)
    ensures IsBlackKey(key) <==> (GetAccidental(key) == '#' || GetAccidental(key) == 'b')
    ensures !IsBlackKey(key) <==> GetAccidental(key) == '-'
  {
  }

  // ---------------------------------------------------------------------------
  // Properties of the key enumeration

  lemma MulBound(i: nat, j: nat, k: nat, m: nat)
    requires i < m && j < k
    ensures i * k + j < k * m
  {
    assert (i + 1) * k <= m * k by {
      assert m * k == (i + 1) * k + (m - i - 1) * k;
    }
  }

  lemma {:induction false} FlatMapLength<A, B>(xs: seq<A>, f: A -> seq<B>, k: nat)
    requires forall x :: x in xs ==> |f(x)| == k
    ensures |FlatMap(xs, f)| == k * |xs|
  {
    if xs != [] {
      FlatMapLength(xs[1..], f, k);
      MulSucc(k, |xs[1..]|);
    }
  }

  /** With blocks of uniform length k, element j of block i sits at i * k + j. */
  lemma {:induction false} FlatMapAt<A, B>(xs: seq<A>, f: A -> seq<B>, k: nat, i: nat, j: nat)
    requires forall x :: x in xs ==> |f(x)| == k
    requires i < |xs| && j < k
    ensures |FlatMap(xs, f)| == k * |xs|
    ensures i * k + j < |FlatMap(xs, f)|
    ensures FlatMap(xs, f)[i * k + j] == f(xs[i])[j]
  {
    FlatMapLength(xs, f, k);
    MulBound(i, j, k, |xs|);
    var head, rest := f(xs[0]), FlatMap(xs[1..], f);
    assert FlatMap(xs, f) == head + rest;
    assert |head| == k;
    if i > 0 {
      FlatMapAt(xs[1..], f, k, i - 1, j);
      BlockShift(i, j, k);
      assert xs[1..][i - 1] == xs[i];
    }
  }

  lemma MulSucc(k: nat, n: nat)
    ensures k * (n + 1) == k + k * n
  {
  }

  lemma BlockShift(i: nat, j: nat, k: nat)
    requires i > 0
    ensures (i - 1) * k + j + k == i * k + j
  {
  }

  lemma AccidentalBlockLength(accidentals: seq<char>, note: char, octave: char)
    ensures |AccidentalBlock(accidentals, note, octave)| == |accidentals|
  {
    FlatMapLength(accidentals, accidental => [MakeKey(note, accidental, octave)], 1);
  }

  lemma NoteBlockLength(notes: seq<char>, accidentals: seq<char>, octave: char)
    ensures |NoteBlock(notes, accidentals, octave)| == |accidentals| * |notes|
  {
    forall note | note in notes
      ensures |AccidentalBlock(accidentals, note, octave)| == |accidentals|
    {
      AccidentalBlockLength(accidentals, note, octave);
    }
    FlatMapLength(notes, note => AccidentalBlock(accidentals, note, octave), |accidentals|);
  }

  lemma NoteBlockAt(notes: seq<char>, accidentals: seq<char>, octave: char, n: nat, a: nat)
    requires n < |notes| && a < |accidentals|
    ensures |NoteBlock(notes, accidentals, octave)| == |accidentals| * |notes|
    ensures n * |accidentals| + a < |NoteBlock(notes, accidentals, octave)|
    ensures NoteBlock(notes, accidentals, octave)[n * |accidentals| + a]
         == MakeKey(notes[n], accidentals[a], octave)
  {
    forall note | note in notes
      ensures |AccidentalBlock(accidentals, note, octave)| == |accidentals|
    {
      AccidentalBlockLength(accidentals, note, octave);
    }
    FlatMapAt(notes, note => AccidentalBlock(accidentals, note, octave), |accidentals|, n, a);
    FlatMapAt(accidentals, accidental => [MakeKey(notes[n], accidental, octave)], 1, a, 0);
  }

  /** Entry 21 * o + 3 * n + a of the enumeration is octave o, note n, accidental a. */
  lemma EnumerateAt(octaves: seq<char>, notes: seq<char>, accidentals: seq<char>, o: nat, n: nat, a: nat)
    requires |notes| == 7 && |accidentals| == 3
    requires o < |octaves| && n < 7 && a < 3
    ensures |Enumerate(octaves, notes, accidentals)| == 21 * |octaves|
    ensures 21 * o + 3 * n + a < |Enumerate(octaves, notes, accidentals)|
    ensures Enumerate(octaves, notes, accidentals)[21 * o + 3 * n + a]
         == MakeKey(notes[n], accidentals[a], octaves[o])
  {
    forall octave | octave in octaves
      ensures |NoteBlock(notes, accidentals, octave)| == 21
    {
      NoteBlockLength(notes, accidentals, octave);
    }
    NoteBlockAt(notes, accidentals, octaves[o], n, a);
    FlatMapAt(octaves, octave => NoteBlock(notes, accidentals, octave), 21, o, 3 * n + a);
  }

  /** Key number 21 * o + 3 * n + a is octave o, note n, accidental a. */
  lemma AllKeysAt(o: nat, n: nat, a: nat)
    requires o < 9 && n < 7 && a < 3
    ensures |AllKeys()| == 189
    ensures AllKeys()[21 * o + 3 * n + a] == MakeKey(Notes[n], Accidentals[a], Octaves[o])
  {
    EnumerateAt(Octaves, Notes, Accidentals, o, n, a);
  }

  /** The three components of an entry number: octave, note and accidental. */
  lemma Digits(i: nat, m: nat) returns (o: nat, n: nat, a: nat)
    requires i < 21 * m
    ensures o < m && n < 7 && a < 3
    ensures i == 21 * o + 3 * n + a
  {
    o, n, a := i / 21, (i % 21) / 3, (i % 21) % 3;
  }

  /** Lists of valid components enumerate valid keys only. */
  lemma EnumerateKeys(octaves: seq<char>, notes: seq<char>, accidentals: seq<char>, i: nat)
    requires |notes| == 7 && |accidentals| == 3
    requires forall c :: c in octaves ==> c in Octaves
    requires forall c :: c in notes ==> c in Notes
    requires forall c :: c in accidentals ==> c in Accidentals
    requires i < 21 * |octaves|
    ensures |Enumerate(octaves, notes, accidentals)| == 21 * |octaves|
    ensures IsKey(Enumerate(octaves, notes, accidentals)[i])
  {
    var o, n, a := Digits(i, |octaves|);
    EnumerateAt(octaves, notes, accidentals, o, n, a);
    MakeKeyRoundTrip(notes[n], accidentals[a], octaves[o]);
  }

  /** The enumeration lists 9 * 7 * 3 = 189 entries, and each of them is a key. */
  lemma AllKeysAreKeys(i: nat)
    requires i < 189
    ensures |AllKeys()| == 189
    ensures IsKey(AllKeys()[i])
  {
    EnumerateKeys(Octaves, Notes, Accidentals, i);
  }

  predicate Distinct(s: seq<char>) {
    forall p, q :: 0 <= p < q < |s| ==> s[p] != s[q]
  }

  /** Lists without repeats enumerate without repeats. */
  lemma EnumerateDistinct(octaves: seq<char>, notes: seq<char>, accidentals: seq<char>, i: nat, j: nat)
    requires |notes| == 7 && |accidentals| == 3
    requires Distinct(octaves) && Distinct(notes) && Distinct(accidentals)
    requires i < j < 21 * |octaves|
    ensures |Enumerate(octaves, notes, accidentals)| == 21 * |octaves|
    ensures Enumerate(octaves, notes, accidentals)[i] != Enumerate(octaves, notes, accidentals)[j]
  {
    var oi, ni, ai := Digits(i, |octaves|);
    var oj, nj, aj := Digits(j, |octaves|);
    EnumerateAt(octaves, notes, accidentals, oi, ni, ai);
    EnumerateAt(octaves, notes, accidentals, oj, nj, aj);
    var ki, kj := Enumerate(octaves, notes, accidentals)[i], Enumerate(octaves, notes, accidentals)[j];
    if oi != oj {
      assert ki[2] != kj[2];
    } else if ni != nj {
      assert ki[0] != kj[0];
    } else {
      assert ki[1] != kj[1];
    }
  }

  /** No component is listed twice. */
  lemma ComponentsDistinct()
    ensures Distinct(Octaves) && Distinct(Notes) && Distinct(Accidentals)
  {
    forall p, q | 0 <= p < q < 9 ensures Octaves[p] != Octaves[q] {
      OctaveDigit(p);
      OctaveDigit(q);
    }
  }

  /** No key is listed twice. */
  lemma AllKeysDistinct(i: nat, j: nat)
    requires i < j < 189
    ensures |AllKeys()| == 189
    ensures AllKeys()[i] != AllKeys()[j]
  {
    ComponentsDistinct();
    EnumerateDistinct(Octaves, Notes, Accidentals, i, j);
  }

  /** No key is missing. */
  lemma AllKeysComplete(key: Key)
    ensures key in AllKeys()
  {
    var o, n, a := OctaveNumber(key[2]), NoteIndex(key[0]), AccidentalIndex(key[1]);
    AllKeysAt(o, n, a);
    KeyFromComponents(key);
    assert AllKeys()[21 * o + 3 * n + a] == key;
  }
}
