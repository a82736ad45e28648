/** The task-details step of the errand wizard (mobile-app/src/app/task-details.tsx):
    the description check, the item-list parsing and the write to the wizard
    store done by `handleContinue`. */
module TaskDetails {
  import opened Wrappers
  import opened Types
  import Strings
  import Seqs
  import opened ErrandFlowStore

  const DescriptionRequired: string := "Please describe what you need"

  /** `itemsList.split('\n').filter(item => item.trim()).map(item => item.trim())`:
      the non-blank lines, each trimmed, in order; never more items than
      lines, and no items at all exactly when every line is blank. */
  function ParseItems(itemsList: string): (r: seq<string>)
    ensures |r| <= |Strings.Split(itemsList, '\n')|
    ensures r == [] <==> forall i :: 0 <= i < |Strings.Split(itemsList, '\n')| ==>
                                       Strings.IsBlank(Strings.Split(itemsList, '\n')[i])
  {
    var lines := Strings.Split(itemsList, '\n');
    var kept := Seqs.Filter(lines, (line: string) => !Strings.IsBlank(line));
    assert kept != [] <==> exists i :: 0 <= i < |lines| && !Strings.IsBlank(lines[i]) by {
      if kept != [] {
        assert kept[0] in lines;
      } else {
        forall i | 0 <= i < |lines|
          ensures Strings.IsBlank(lines[i])
        {
          assert lines[i] in lines;
        }
      }
    }
    Seqs.Map(kept, Strings.Trim)
  }

  /** What a parsed item looks like: a non-blank, already trimmed line. */
  predicate IsCleanItem(item: string) {
    !Strings.IsBlank(item) && Strings.Trim(item) == item && '\n' !in item
  }

  /** Trimming a non-blank single line gives a clean item. */
  lemma TrimmedLinesAreClean(kept: seq<string>)
    requires forall i :: 0 <= i < |kept| ==> !Strings.IsBlank(kept[i]) && '\n' !in kept[i]
    ensures forall i :: 0 <= i < |kept| ==> IsCleanItem(Strings.Trim(kept[i]))
  {
    forall i | 0 <= i < |kept|
      ensures IsCleanItem(Strings.Trim(kept[i]))
    {
      var line := kept[i];
      Strings.TrimEmptyIffBlank(line);
      var t := Strings.Trim(line);
      Strings.TrimIdempotent(line);
      Strings.TrimEmptyIffBlank(t);
      TrimKeepsOut(line, '\n');
    }
  }

  /** Every parsed item is a clean line of the input. */
  lemma ParsedItemsAreClean(itemsList: string)
    ensures forall i :: 0 <= i < |ParseItems(itemsList)| ==> IsCleanItem(ParseItems(itemsList)[i])
  {
    var lines := Strings.Split(itemsList, '\n');
    var kept := Seqs.Filter(lines, (line: string) => !Strings.IsBlank(line));
    forall i | 0 <= i < |kept|
      ensures '\n' !in kept[i]
    {
      assert kept[i] in lines;
    }
    TrimmedLinesAreClean(kept);
    var items := ParseItems(itemsList);
    assert items == Seqs.Map(kept, Strings.Trim);
    forall i | 0 <= i < |items|
      ensures IsCleanItem(items[i])
    {
      assert items[i] == Strings.Trim(kept[i]);
    }
  }

  /** A single line parses to nothing when blank and to itself, trimmed,
      otherwise. */
  lemma ParseOneLine(line: string)
    requires '\n' !in line
    ensures ParseItems(line) == if Strings.IsBlank(line) then [] else [Strings.Trim(line)]
  {
    assert Strings.Split(line, '\n') == [line];
    var nonBlank := (l: string) => !Strings.IsBlank(l);
    assert Seqs.Filter([line], nonBlank) == (if nonBlank(line) then [line] else []) by {
      assert [line][1..] == [];
    }
  }

  /** Parsing goes line by line: the items of the first line come first,
      followed by the items of the rest. Together with `ParseOneLine` this
      fixes the result for every input: the non-blank lines, each trimmed,
      in their order. */
  lemma ParseItemsConcat(a: string, b: string)
    requires '\n' !in a
    ensures ParseItems(a + "\n" + b) == ParseItems(a) + ParseItems(b)
  {
    var s := a + "\n" + b;
    var nonBlank := (l: string) => !Strings.IsBlank(l);
    assert s[|a|] == '\n';
    var k := Strings.IndexOf(s, '\n');
    assert k == |a|;
    assert s[..k] == a;
    assert s[k + 1..] == b;
    assert Strings.Split(s, '\n') == [a] + Strings.Split(b, '\n');
    assert Strings.Split(a, '\n') == [a];
    Seqs.FilterAppend([a], Strings.Split(b, '\n'), nonBlank);
    var ka := Seqs.Filter([a], nonBlank);
    var kb := Seqs.Filter(Strings.Split(b, '\n'), nonBlank);
    var m := Seqs.Map(ka + kb, Strings.Trim);
    assert m == Seqs.Map(ka, Strings.Trim) + Seqs.Map(kb, Strings.Trim);
  }

  /** Trimming never introduces a character. */
  lemma TrimKeepsOut(s: string, c: char)
    requires c !in s
    ensures c !in Strings.Trim(s)
  {
    var t := Strings.TrimStart(s);
    assert c !in t;
    assert Strings.TrimEnd(t) == t[..|Strings.TrimEnd(t)|];
  }

  /** The screen starts from `items.join('\n')`; continuing parses that text
      back into the same items, whenever they are clean (in particular,
      whenever they came from an earlier parse). */
  lemma {:induction false} ParseItemsOfJoin(items: seq<string>)
    requires forall i :: 0 <= i < |items| ==> IsCleanItem(items[i])
    ensures ParseItems(Strings.Join(items, '\n')) == items
  {
    var nonBlank := (line: string) => !Strings.IsBlank(line);
    if items == [] {
      assert Strings.Split([], '\n') == [[]];
      assert Seqs.Filter([[]], nonBlank) == [];
    } else {
      Strings.SplitJoin(items, '\n');
      Seqs.FilterAll(items, nonBlank);
      var mapped := Seqs.Map(items, Strings.Trim);
      assert forall i :: 0 <= i < |items| ==> mapped[i] == items[i];
    }
  }

  /** The object `handleContinue` passes to `setTaskDetails`. `now` is the
      `new Date()` taken when the errand is not for now. */
  function BuildTaskDetails(description: string, itemsList: string, specialInstructions: string,
                            scheduleNow: bool, now: Timestamp): (d: ErrandTaskDetails)
    ensures d.description == Strings.Trim(description)
    ensures d.items.None? <==> ParseItems(itemsList) == []
    ensures d.items.Some? ==> d.items.value == ParseItems(itemsList)
    ensures d.specialInstructions.None? <==> Strings.IsBlank(specialInstructions)
    ensures d.specialInstructions.Some? ==> d.specialInstructions.value == Strings.Trim(specialInstructions)
    ensures d.scheduledTime == (if scheduleNow then None else Some(now))
    ensures d.attachments.None?
  {
    Strings.TrimEmptyIffBlank(specialInstructions);
    var items := ParseItems(itemsList);
    var instructions := Strings.Trim(specialInstructions);
    ErrandTaskDetails(
      Strings.Trim(description),
      if |items| > 0 then Some(items) else None,
      if instructions != [] then Some(instructions) else None,
      if scheduleNow then None else Some(now),
      None)
  }

  /** `handleContinue`: with a blank description, returns the error shown
      under the field and leaves the wizard untouched; otherwise stores the
      details, moves to `price_preview` and returns no error. */
  method HandleContinue(flow: ErrandFlowStore, description: string, itemsList: string,
                        specialInstructions: string, scheduleNow: bool, now: Timestamp)
    returns (descriptionError: Option<string>)
    modifies flow
    ensures descriptionError.Some? <==> Strings.IsBlank(description)
    ensures descriptionError.Some? ==> descriptionError.value == DescriptionRequired &&
                                       flow.State() == old(flow.State())
    ensures descriptionError.None? ==>
      flow.State() == old(flow.State()).(taskDetails := Some(BuildTaskDetails(description, itemsList,
                                           specialInstructions, scheduleNow, now)),
                                         currentStep := PricePreview)
  {
    Strings.TrimEmptyIffBlank(description);
    if Strings.Trim(description) == [] {
      return Some(DescriptionRequired);
    }
    var details := BuildTaskDetails(description, itemsList, specialInstructions, scheduleNow, now);
    flow.SetTaskDetails(details);
    flow.SetCurrentStep(PricePreview);
    return None;
  }
}
