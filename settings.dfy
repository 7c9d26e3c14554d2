/** The working-hours editor of the settings page: a list of time blocks,
    two hour pickers, an "Add Block" button and a "Remove" button per
    block. */
module Settings {
  import Lists

  /** A block of working hours; `start` and `end` are the picked labels. */
  datatype Block = Block(id: string, start: string, end: string)

  /** The blocks the page starts with. */
  const InitialBlocks: seq<Block> := [Block("1", "09:00", "12:00"), Block("2", "14:00", "17:00")]

  /** `block => block.id !== id` */
  function KeepsBlock(id: string): Block -> bool {
    (b: Block) => b.id != id
  }

  /** `blocks.filter(block => block.id !== id)`: every block with that id
      is dropped, the others stay, as often as they were there and in their
      order. */
  function WithoutBlock(blocks: seq<Block>, id: string): (r: seq<Block>)
    ensures forall b :: b in r <==> b in blocks && b.id != id
    ensures Lists.IsSubsequence(r, blocks)
  {
    Lists.Filter(blocks, KeepsBlock(id))
  }

  /** Removal keeps every other block exactly as often as before. */
  lemma WithoutBlockCounts(blocks: seq<Block>, id: string, b: Block)
    ensures multiset(WithoutBlock(blocks, id))[b] == if b.id == id then 0 else multiset(blocks)[b]
  {
    Lists.FilterMultiplicity(blocks, KeepsBlock(id), b);
  }

  /** Removing an id no block has changes nothing. */
  lemma WithoutAbsentId(blocks: seq<Block>, id: string)
    requires forall i :: 0 <= i < |blocks| ==> blocks[i].id != id
    ensures WithoutBlock(blocks, id) == blocks
  {
    Lists.FilterKeepsAll(blocks, KeepsBlock(id));
  }

  /** Removing the same id twice is the same as removing it once. */
  lemma WithoutBlockIdempotent(blocks: seq<Block>, id: string)
    ensures WithoutBlock(WithoutBlock(blocks, id), id) == WithoutBlock(blocks, id)
  {
    Lists.FilterIdempotent(blocks, KeepsBlock(id));
  }

  /** Adding a block under an id no other block has, then removing that id,
      gives back the original list. */
  lemma RemoveUndoesAdd(blocks: seq<Block>, id: string, start: string, end: string)
    requires forall i :: 0 <= i < |blocks| ==> blocks[i].id != id
    ensures WithoutBlock(blocks + [Block(id, start, end)], id) == blocks
  {
    Lists.FilterConcat(blocks, [Block(id, start, end)], KeepsBlock(id));
    Lists.FilterKeepsAll(blocks, KeepsBlock(id));
    Lists.FilterUncons([Block(id, start, end)], KeepsBlock(id));
  }

  /** The state of the editor: the blocks and the two picked hours. */
  class ScheduleEditor {
    var blocks: seq<Block>
    var newStart: string
    var newEnd: string

    constructor ()
      ensures blocks == InitialBlocks && newStart == "" && newEnd == ""
    {
      blocks := InitialBlocks;
      newStart := "";
      newEnd := "";
    }

    /** Picking a start hour. */
    method SelectStart(hour: string)
      modifies this
      ensures newStart == hour && newEnd == old(newEnd) && blocks == old(blocks)
    {
      newStart := hour;
    }

    /** Picking an end hour. */
    method SelectEnd(hour: string)
      modifies this
      ensures newEnd == hour && newStart == old(newStart) && blocks == old(blocks)
    {
      newEnd := hour;
    }

    /** `addScheduleBlock`, with the timestamp id passed in: when both
        hours are picked, one block with those hours is appended and both
        pickers are cleared; the hours are not compared, so an end before
        the start is accepted. When either is unpicked nothing changes. */
    method AddBlock(id: string)
      modifies this
      ensures old(newStart) != "" && old(newEnd) != "" ==>
        blocks == old(blocks) + [Block(id, old(newStart), old(newEnd))] &&
        newStart == "" && newEnd == ""
      ensures old(newStart) == "" || old(newEnd) == "" ==>
        blocks == old(blocks) && newStart == old(newStart) && newEnd == old(newEnd)
    {
      if newStart != "" && newEnd != "" {
        blocks := blocks + [Block(id, newStart, newEnd)];
        newStart := "";
        newEnd := "";
      }
    }

    /** `deleteScheduleBlock(id)`: the pickers are left as they are. */
    method DeleteBlock(id: string)
      modifies this
      ensures blocks == WithoutBlock(old(blocks), id)
      ensures newStart == old(newStart) && newEnd == old(newEnd)
    {
      blocks := WithoutBlock(blocks, id);
    }
  }

  /** The decimal digit `d`. */
  function Digit(d: nat): (c: char)
    requires d < 10
    ensures '0' <= c <= '9' && c as int - '0' as int == d
  {
    ('0' as int + d) as char
  }

  /** `String(n)` for a natural number: its decimal digits, without leading
      zeros. */
  function DecimalString(n: nat): (r: string)
    ensures 1 <= |r|
    ensures n < 10 ==> r == [Digit(n)]
    ensures 10 <= n < 100 ==> r == [Digit(n / 10), Digit(n % 10)]
    decreases n
  {
    if n < 10 then [Digit(n)] else DecimalString(n / 10) + [Digit(n % 10)]
  }

  /** `s.padStart(width, c)` with a one-character pad: `c` repeated in
      front of `s` up to `width` characters; a longer `s` is kept. */
  function PadStart(s: string, width: nat, c: char): (r: string)
    ensures |r| == if |s| < width then width else |s|
    ensures r[|r| - |s|..] == s
    ensures forall i :: 0 <= i < |r| - |s| ==> r[i] == c
  {
    if |s| < width then seq(width - |s|, _ => c) + s else s
  }

  /** The label of hour `h` in both pickers: the hour padded to two digits, then ":00". */
  function HourLabel(h: nat): (r: string)
    requires h < 24
    ensures r == [Digit(h / 10), Digit(h % 10), ':', '0', '0']
  {
    PadStart(DecimalString(h), 2, '0') + ":00"
  }

  /** Reads the hour back off the two leading digits of a label. */
  function ParseHour(hour: string): int
    requires |hour| >= 2
  {
    (hour[0] as int - '0' as int) * 10 + (hour[1] as int - '0' as int)
  }

  /** `Array.from({ length: 24 }).map(...)`: the options of both pickers.
      There are 24, each reads back as its own position, so no two are
      the same. */
  function HourOptions(): (r: seq<string>)
    ensures |r| == 24
    ensures forall h :: 0 <= h < 24 ==> |r[h]| >= 2 && ParseHour(r[h]) == h
    ensures forall h, k :: 0 <= h < k < 24 ==> r[h] != r[k]
  {
    LabelsParse();
    seq(24, h requires 0 <= h < 24 => HourLabel(h))
  }

  /** Every label reads back as its own hour. */
  lemma HourLabelParses(h: nat)
    requires h < 24
    ensures ParseHour(HourLabel(h)) == h
  {
    var r := HourLabel(h);
    assert r[0] == Digit(h / 10) && r[1] == Digit(h % 10);
  }

  lemma LabelsParse()
    ensures forall h: nat :: h < 24 ==> ParseHour(HourLabel(h)) == h
  {
    forall h: nat | h < 24 ensures ParseHour(HourLabel(h)) == h {
      HourLabelParses(h);
    }
  }

  /** The options run from "00:00" to "23:00". */
  lemma HourOptionsRange()
    ensures HourOptions()[0] == "00:00" && HourOptions()[23] == "23:00"
  {
    assert HourOptions()[0] == [Digit(0), Digit(0), ':', '0', '0'];
    assert HourOptions()[23] == [Digit(2), Digit(3), ':', '0', '0'];
  }
}
