/**
 * Room codes: six characters drawn from an alphabet without the easily
 * confused characters. The generator is fed its random choices explicitly:
 * one alphabet index per character.
 */
module RoomUrl {

  const Alphabet: string := "abcdefghijkmnpqrstuvwxyz23456789"
  const CodeLength: nat := 6

  /** One random draw: an index into the alphabet. */
  type Pick = i: nat | i < 32

  /** `isValidRoomUrl`: exactly six characters, all from the alphabet. */
  predicate IsValidRoomUrl(s: string): (valid: bool)
    ensures valid ==> |s| == CodeLength
    ensures valid ==> forall i :: 0 <= i < |s| ==>
      s[i] != 'l' && s[i] != 'o' && s[i] != '0' && s[i] != '1' && !('A' <= s[i] <= 'Z')
  {
    AlphabetShape();
    |s| == CodeLength && forall i :: 0 <= i < |s| ==> s[i] in Alphabet
  }

  /** `generateRoomUrl` given its six draws: character i of the code is the
      alphabet letter the i-th draw selects, so every code it produces is valid. */
  function GenerateRoomUrl(picks: seq<Pick>): (code: string)
    requires |picks| == CodeLength
    ensures IsValidRoomUrl(code)
    ensures forall i :: 0 <= i < CodeLength ==> code[i] == Alphabet[picks[i]]
  {
    assert |Alphabet| == 32;
    seq(CodeLength, i requires 0 <= i < CodeLength => Alphabet[picks[i]])
  }

  /** Position of an alphabet character, computed from its code point: the
      letters a..z without l and o, then the digits 2..9. */
  function Rank(c: char): int {
    if 'a' <= c <= 'z' then
      (c as int - 'a' as int) - (if c > 'l' then 1 else 0) - (if c > 'o' then 1 else 0)
    else
      24 + (c as int - '2' as int)
  }

  lemma RankOfAlphabet()
    ensures |Alphabet| == 32
    ensures forall i :: 0 <= i < |Alphabet| ==> Rank(Alphabet[i]) == i
  {
  }

  /** The alphabet has 32 distinct characters and none of `l`, `o`, `0`, `1`
      or an upper-case letter. */
  lemma AlphabetShape()
    ensures |Alphabet| == 32
    ensures forall i, j :: 0 <= i < j < |Alphabet| ==> Alphabet[i] != Alphabet[j]
    ensures 'l' !in Alphabet && 'o' !in Alphabet && '0' !in Alphabet && '1' !in Alphabet
    ensures forall i :: 0 <= i < |Alphabet| ==> !('A' <= Alphabet[i] <= 'Z')
  {
    RankOfAlphabet();
  }

  /** The draw that selects `c`. */
  function IndexOf(c: char): (k: Pick)
    requires c in Alphabet
    ensures Alphabet[k] == c
  {
    RankOfAlphabet();
    var i :| 0 <= i < |Alphabet| && Alphabet[i] == c;
    assert Rank(c) == i;
    Rank(c)
  }

  /** The draws that make the generator produce `code`. */
  function PicksOf(code: string): (picks: seq<Pick>)
    requires IsValidRoomUrl(code)
    ensures |picks| == CodeLength
    ensures GenerateRoomUrl(picks) == code
  {
    seq(CodeLength, i requires 0 <= i < CodeLength => IndexOf(code[i]))
  }

  /** The generator is a bijection between draw sequences and valid codes:
      every valid code is produced by exactly one choice of draws. */
  lemma GeneratorBijective(picks: seq<Pick>, code: string)
    requires |picks| == CodeLength
    requires IsValidRoomUrl(code)
    ensures PicksOf(GenerateRoomUrl(picks)) == picks
    ensures GenerateRoomUrl(PicksOf(code)) == code
  {
    AlphabetShape();
    var back := PicksOf(GenerateRoomUrl(picks));
    forall i | 0 <= i < CodeLength ensures back[i] == picks[i] {
      assert Alphabet[back[i]] == Alphabet[picks[i]];
    }
  }

  /** The validator's accepted and rejected examples. */
  lemma ValidatorExamples()
    ensures IsValidRoomUrl("abc234") && IsValidRoomUrl("zyx987") && IsValidRoomUrl("mnpqrs")
    ensures !IsValidRoomUrl("abc23") && !IsValidRoomUrl("abc2345") && !IsValidRoomUrl("")
    ensures !IsValidRoomUrl("abc01I") && !IsValidRoomUrl("ABC234")
  {
    AlphabetShape();
    assert "abc01I"[3] == '0';
    assert "ABC234"[0] == 'A';
  }
}
