/** The two helpers that render a customer's avatar: the initials and the
    colour picked from a hash of the name. */
module Display {
  import opened Text
  import Lists

  // ---------------------------------------------------------------------------
  // getInitials
  // ---------------------------------------------------------------------------

  /** `parts.map(n => n[0]).join('')`: an empty part contributes nothing
      (`''[0]` is `undefined`, which `join` renders as the empty string). */
  function Heads(parts: seq<string>): (r: string)
    ensures |r| <= |parts|
  {
    if parts == [] then []
    else (if parts[0] == "" then [] else [parts[0][0]]) + Heads(parts[1..])
  }

  /** `name.split(' ').map(n => n[0]).join('').toUpperCase().slice(0, 2)`. */
  function Initials(name: string): (r: string)
    ensures |r| <= 2
  {
    Take(Upper(Heads(Split(name, ' '))), 2)
  }

  /** A word that `n => n[0]` turns into a letter. */
  predicate NonEmpty(w: string) {
    w != ""
  }

  /** The heads are the first letters of the non-empty words, in order. */
  lemma {:induction false} HeadsOfNonEmpty(parts: seq<string>)
    ensures var ne := Lists.Filter(parts, NonEmpty);
      && |Heads(parts)| == |ne|
      && forall k :: 0 <= k < |ne| ==> Heads(parts)[k] == ne[k][0]
  {
    if parts != [] {
      HeadsOfNonEmpty(parts[1..]);
      var rest := Lists.Filter(parts[1..], NonEmpty);
      assert Lists.Filter(parts, NonEmpty) == (if NonEmpty(parts[0]) then [parts[0]] else []) + rest;
    }
  }

  /** The initials are the upper-cased first letters of the first two non-empty
      words of the name, in word order; fewer when the name has fewer words. */
  lemma InitialsAreWordHeads(name: string)
    ensures var ne := Lists.Filter(Split(name, ' '), NonEmpty);
      && |Initials(name)| == (if |ne| < 2 then |ne| else 2)
      && forall k :: 0 <= k < |Initials(name)| ==> Initials(name)[k] == UpperChar(ne[k][0])
  {
    HeadsOfNonEmpty(Split(name, ' '));
  }

  /** "First Last" gives the two upper-cased first letters. */
  lemma InitialsOfTwoWords(first: string, last: string)
    requires first != "" && last != ""
    requires ' ' !in first && ' ' !in last
    ensures Initials(first + " " + last) == [UpperChar(first[0]), UpperChar(last[0])]
  {
    SplitAfterPiece(first, last, ' ');
    SplitNoSep(last, ' ');
    var parts := Split(first + " " + last, ' ');
    assert parts == [first, last];
    assert parts[1..][1..] == [];
    assert Heads(parts) == [first[0], last[0]];
  }

  /** Doubled spaces do not produce extra initials: empty words are skipped. */
  lemma InitialsSkipEmptyWords(first: string, last: string)
    requires first != "" && last != ""
    requires ' ' !in first && ' ' !in last
    ensures Initials(first + "  " + last) == Initials(first + " " + last)
  {
    InitialsOfTwoWords(first, last);
    assert first + "  " + last == first + [' '] + ([' '] + last);
    SplitAfterPiece(first, [' '] + last, ' ');
    SplitAfterPiece([], last, ' ');
    assert [] + [' '] + last == [' '] + last;
    SplitNoSep(last, ' ');
    var parts := Split(first + "  " + last, ' ');
    assert parts == [first, "", last];
    assert parts[1..] == ["", last];
    assert parts[1..][1..] == [last];
    assert [last][1..] == [];
    assert Heads([last]) == [last[0]];
    assert Heads(["", last]) == [last[0]];
    assert Heads(parts) == [first[0], last[0]];
  }

  // ---------------------------------------------------------------------------
  // getAvatarColor
  // ---------------------------------------------------------------------------

  const AVATAR_COLORS: seq<string> := [
    "bg-blue-500", "bg-emerald-500", "bg-violet-500",
    "bg-amber-500", "bg-rose-500", "bg-cyan-500", "bg-indigo-500"
  ]

  const TWO_32: int := 0x1_0000_0000
  const TWO_31: int := 0x8000_0000

  /** ECMAScript ToInt32 on an integral number: the representative of `x`
      modulo 2^32 in [-2^31, 2^31). */
  function ToInt32(x: int): (r: int)
    ensures -TWO_31 <= r < TWO_31
    ensures (x - r) % TWO_32 == 0
  {
    var m := x % TWO_32;
    if m >= TWO_31 then m - TWO_32 else m
  }

  /** `hash << 5`: both operands go through ToInt32, and so does the result. */
  function ShiftLeft5(h: int): int {
    ToInt32(ToInt32(h) * 32)
  }

  /** One loop step: `hash = code + ((hash << 5) - hash)`. */
  function HashStep(h: int, c: char): int {
    c as int + (ShiftLeft5(h) - h)
  }

  /** The value `hash` holds after the loop has consumed all of `s`. */
  function AvatarHash(s: string): int {
    if s == [] then 0 else HashStep(AvatarHash(s[..|s| - 1]), s[|s| - 1])
  }

  /** `Math.abs(hash) % colors.length`. */
  function AvatarIndex(name: string): (r: nat)
    ensures r < |AVATAR_COLORS|
  {
    var h := AvatarHash(name);
    (if h < 0 then -h else h) % |AVATAR_COLORS|
  }

  /** `getAvatarColor`: hashes the name character by character and picks one of
      the seven colours. */
  method AvatarColor(name: string) returns (color: string)
    ensures color == AVATAR_COLORS[AvatarIndex(name)]
    ensures color in AVATAR_COLORS
  {
    var hash := 0;
    var i := 0;
    while i < |name|
      invariant 0 <= i <= |name|
      invariant hash == AvatarHash(name[..i])
    {
      assert name[..i + 1][..i] == name[..i];
      hash := name[i] as int + (ShiftLeft5(hash) - hash);
      i := i + 1;
    }
    assert name[..i] == name;
    var index := (if hash < 0 then -hash else hash) % |AVATAR_COLORS|;
    color := AVATAR_COLORS[index];
  }

  /** The colour depends only on the name: a one-letter name hashes to its
      character code. */
  lemma AvatarHashSingle(c: char)
    ensures AvatarHash([c]) == c as int
  {
    assert [c][..0] == [];
  }
}
