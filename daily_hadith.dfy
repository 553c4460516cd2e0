/**
 * The "Ramadan Hadith of the Day" card (`RamadanHadith`): a fixed collection
 * of 21 hadiths, an index into it chosen on mount from the day of the month,
 * and previous/next buttons that wrap around at either end.
 */
module DailyHadith {

  /** One entry of the collection; the Arabic and English texts are not modelled. */
  datatype Hadith = Hadith(id: nat, collection: string, hadithNumber: nat, narratedBy: string)

  /** `RAMADAN_HADITHS`, in source order. */
  const RamadanHadiths: seq<Hadith> := [
    Hadith(1, "Sahih Al-Bukhari", 1904, "Abu Huraira"),
    Hadith(2, "Sahih Al-Bukhari", 1899, "Abu Huraira"),
    Hadith(3, "Sahih Muslim", 1151, "Abu Huraira"),
    Hadith(4, "Sahih Muslim", 1165, "Abu Huraira"),
    Hadith(5, "Sunan Ibn Majah", 1638, "Abdullah ibn Amr"),
    Hadith(6, "Jami at-Tirmidhi", 807, "Abu Huraira"),
    Hadith(7, "Sahih Al-Bukhari", 1901, "Abu Huraira"),
    Hadith(8, "Sunan An-Nasa'i", 2106, "Abu Huraira"),
    Hadith(9, "Sahih Muslim", 2614, "Abu Huraira"),
    Hadith(10, "Sunan Abu Dawud", 2363, "Mu'adh ibn Jabal"),
    Hadith(11, "Sahih Al-Bukhari", 1903, "Abu Huraira"),
    Hadith(12, "Sahih Muslim", 1156, "Abu Huraira"),
    Hadith(13, "Sahih Muslim", 1164, "Abu Huraira"),
    Hadith(14, "Sahih Al-Bukhari", 1928, "Aisha"),
    Hadith(15, "Jami at-Tirmidhi", 682, "Abu Huraira"),
    Hadith(16, "Sahih Al-Bukhari", 1078, "Abu Huraira"),
    Hadith(17, "Sunan Abu Dawud", 2452, "Salman Al-Farisi"),
    Hadith(18, "Sahih Muslim", 1147, "Abu Huraira"),
    Hadith(19, "Sahih Muslim", 1081, "Ibn Abbas"),
    Hadith(20, "Sunan Ibn Majah", 1752, "Anas ibn Malik"),
    Hadith(21, "Sahih Muslim", 1167, "Abu Huraira")
  ]

  /** `RAMADAN_HADITHS.length`. */
  const HadithCount: nat := 21

  /** The collection has `HadithCount` entries, numbered 1 through 21 in order. */
  lemma CollectionShape()
    ensures |RamadanHadiths| == HadithCount
    ensures forall i :: 0 <= i < |RamadanHadiths| ==> RamadanHadiths[i].id == i + 1
  {
  }

  /** The index `nextHadith` moves to: one step forward, from the last back to the first. */
  function NextIndex(i: int): (r: int)
    requires 0 <= i < HadithCount
    ensures 0 <= r < HadithCount
    ensures r == (i + 1) % HadithCount
  {
    if i == HadithCount - 1 then 0 else i + 1
  }

  /** The index `prevHadith` moves to: one step back, from the first round to the last. */
  function PrevIndex(i: int): (r: int)
    requires 0 <= i < HadithCount
    ensures 0 <= r < HadithCount
    ensures r == (i - 1) % HadithCount
  {
    if i == 0 then HadithCount - 1 else i - 1
  }

  /** `prevHadith` undoes `nextHadith`, and `nextHadith` undoes `prevHadith`. */
  lemma PrevUndoesNext(i: int)
    requires 0 <= i < HadithCount
    ensures PrevIndex(NextIndex(i)) == i
    ensures NextIndex(PrevIndex(i)) == i
  {
  }

  /** The index reached by pressing "Next" `n` times. */
  function NextTimes(i: int, n: nat): (r: int)
    requires 0 <= i < HadithCount
    ensures 0 <= r < HadithCount
  {
    if n == 0 then i else NextIndex(NextTimes(i, n - 1))
  }

  /** Pressing "Next" `n` times advances the index by `n` modulo 21, so 21 presses come back. */
  lemma {:induction false} NextTimesIsModular(i: int, n: nat)
    requires 0 <= i < HadithCount
    ensures NextTimes(i, n) == (i + n) % HadithCount
  {
    if n > 0 {
      NextTimesIsModular(i, n - 1);
    }
  }

  /**
   * The mount effect's choice: `dayOfMonth - 1` when that indexes the
   * collection, otherwise `floor(random * 21)` for a `random` in [0, 1).
   */
  function MountIndex(dayOfMonth: int, random: real): (r: int)
    requires 1 <= dayOfMonth <= 31
    requires 0.0 <= random < 1.0
    ensures 0 <= r < HadithCount
    ensures dayOfMonth - 1 < HadithCount ==> r == dayOfMonth - 1
  {
    if dayOfMonth - 1 < HadithCount then dayOfMonth - 1
    else
      var scaled := random * HadithCount as real;
      assert 0.0 <= scaled < HadithCount as real;
      scaled.Floor
  }

  class RamadanHadith {
    var hadithIndex: int
    var isExpanded: bool

    /** The index always names an entry of the collection. */
    predicate Valid()
      reads this
    {
      0 <= hadithIndex < HadithCount
    }

    /** `useState(0)` and `useState(false)`. */
    constructor ()
      ensures Valid()
      ensures hadithIndex == 0 && !isExpanded
    {
      hadithIndex := 0;
      isExpanded := false;
    }

    /** `currentHadith`, defined because the index stays in range. */
    function CurrentHadith(): (h: Hadith)
      requires Valid()
      reads this
      ensures h in RamadanHadiths && h == RamadanHadiths[hadithIndex]
      ensures h.id == hadithIndex + 1
    {
      CollectionShape();
      RamadanHadiths[hadithIndex]
    }

    /** The position shown under the text, `hadithIndex + 1` of 21. */
    function Position(): (n: int)
      requires Valid()
      reads this
      ensures 1 <= n <= HadithCount
      ensures n == CurrentHadith().id
    {
      hadithIndex + 1
    }

    /** The mount effect, given the day of the month and a draw of `Math.random()`. */
    method Mount(dayOfMonth: int, random: real)
      requires 1 <= dayOfMonth <= 31
      requires 0.0 <= random < 1.0
      modifies this`hadithIndex
      ensures Valid()
      ensures hadithIndex == MountIndex(dayOfMonth, random)
    {
      hadithIndex := MountIndex(dayOfMonth, random);
    }

    /** The "Next" button. */
    method Next()
      requires Valid()
      modifies this`hadithIndex
      ensures Valid()
      ensures hadithIndex == NextIndex(old(hadithIndex))
    {
      hadithIndex := NextIndex(hadithIndex);
    }

    /** The "Previous" button. */
    method Prev()
      requires Valid()
      modifies this`hadithIndex
      ensures Valid()
      ensures hadithIndex == PrevIndex(old(hadithIndex))
    {
      hadithIndex := PrevIndex(hadithIndex);
    }

    /** A click on the header expands or collapses the card. */
    method ToggleExpanded()
      modifies this`isExpanded
      ensures isExpanded == !old(isExpanded)
    {
      isExpanded := !isExpanded;
    }
  }
}
