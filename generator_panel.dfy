/**
 * The bracket generator panel: the strategy filter, the per-strategy
 * counts, the 50-row table with its "Showing first 50" notice, the message
 * styling, and the `generating` / `message` state of the generate and
 * delete buttons. The API calls are replaced by their outcomes.
 */
module GeneratorPanel {
  import opened Wrappers
  import opened Text
  import opened Records

  const All: string := "all"
  const TableRows: nat := 50

  // ---------------------------------------------------------------------
  // `filteredBrackets` and `strategyStats`.

  /** `brackets.filter(b => b.strategy === strategy)`. */
  function WithStrategy(brackets: seq<BracketRecord>, strategy: string): (r: seq<BracketRecord>)
    ensures forall k :: 0 <= k < |r| ==> r[k].strategy == strategy
    ensures forall b :: b in r <==> b in brackets && b.strategy == strategy
    ensures |r| <= |brackets|
  {
    if brackets == [] then []
    else
      assert brackets == [brackets[0]] + brackets[1..];
      (if brackets[0].strategy == strategy then [brackets[0]] else []) + WithStrategy(brackets[1..], strategy)
  }

  /** Filtering keeps the original order: it distributes over concatenation. */
  lemma {:induction false} WithStrategyAppend(a: seq<BracketRecord>, b: seq<BracketRecord>, strategy: string)
    ensures WithStrategy(a + b, strategy) == WithStrategy(a, strategy) + WithStrategy(b, strategy)
    decreases |a|
  {
    if a != [] {
      var head := if a[0].strategy == strategy then [a[0]] else [];
      assert (a + b)[0] == a[0] && (a + b)[1..] == a[1..] + b;
      WithStrategyAppend(a[1..], b, strategy);
      AppendAssoc(head, WithStrategy(a[1..], strategy), WithStrategy(b, strategy));
    } else {
      assert a + b == b;
    }
  }

  function Filtered(brackets: seq<BracketRecord>, filter: string): (r: seq<BracketRecord>)
    ensures filter == All ==> r == brackets
    ensures filter != All ==> forall b :: b in r <==> b in brackets && b.strategy == filter
  {
    if filter == All then brackets else WithStrategy(brackets, filter)
  }

  datatype StrategyStats = StrategyStats(value: nat, chalk: nat, chaos: nat)

  function Stats(brackets: seq<BracketRecord>): StrategyStats {
    StrategyStats(|WithStrategy(brackets, "value")|, |WithStrategy(brackets, "chalk")|,
                  |WithStrategy(brackets, "chaos")|)
  }

  /** Every bracket is counted under at most one strategy, so the three counts never exceed the list. */
  lemma {:induction false} StatsBounded(brackets: seq<BracketRecord>)
    ensures var s := Stats(brackets);
      s.value <= |brackets| && s.chalk <= |brackets| && s.chaos <= |brackets|
      && s.value + s.chalk + s.chaos <= |brackets|
    decreases |brackets|
  {
    if brackets != [] {
      StatsBounded(brackets[1..]);
    }
  }

  /** A list holding only the three strategies is counted in full. */
  lemma {:induction false} StatsCoverThreeStrategies(brackets: seq<BracketRecord>)
    requires forall k :: 0 <= k < |brackets| ==> brackets[k].strategy in {"value", "chalk", "chaos"}
    ensures var s := Stats(brackets); s.value + s.chalk + s.chaos == |brackets|
    decreases |brackets|
  {
    if brackets != [] {
      StatsCoverThreeStrategies(brackets[1..]);
    }
  }

  // ---------------------------------------------------------------------
  // The table and its notice.

  /** `filteredBrackets.slice(0, 50)`. */
  function VisibleRows(filtered: seq<BracketRecord>): (r: seq<BracketRecord>)
    ensures |r| == if |filtered| < TableRows then |filtered| else TableRows
    ensures forall k :: 0 <= k < |r| ==> r[k] == filtered[k]
  {
    if |filtered| <= TableRows then filtered else filtered[..TableRows]
  }

  predicate ShowsNotice(filtered: seq<BracketRecord>) {
    |filtered| > TableRows
  }

  function NoticeText(filtered: seq<BracketRecord>): string {
    "Showing first 50 of " + IntToString(|filtered|) + " brackets"
  }

  /** The notice appears exactly when the table leaves some filtered bracket out. */
  lemma NoticeIffTruncated(filtered: seq<BracketRecord>)
    ensures ShowsNotice(filtered) <==> VisibleRows(filtered) != filtered
    ensures ShowsNotice(filtered) ==> |VisibleRows(filtered)| == TableRows
  {
    if ShowsNotice(filtered) {
      assert |VisibleRows(filtered)| != |filtered|;
    }
  }

  // ---------------------------------------------------------------------
  // Messages and the panels that depend on the list.

  const GenerateOk: string := "✅ Successfully generated 200 brackets!"
  const GenerateFailed: string := "❌ Generation failed." + " Make sure KenPom data is uploaded."
  const DeleteOk: string := "✅ Deleted all brackets"
  const DeleteFailed: string := "❌ Delete failed"

  /** `message.includes('✅')`: the message is shown in the success colour. */
  predicate IsSuccessStyled(message: string) {
    '✅' in message
  }

  /** The two success messages are styled as success, the two failure messages are not. */
  lemma MessageStyles()
    ensures IsSuccessStyled(GenerateOk) && IsSuccessStyled(DeleteOk)
    ensures !IsSuccessStyled(GenerateFailed) && !IsSuccessStyled(DeleteFailed)
  {
    assert GenerateOk[0] == '✅' && DeleteOk[0] == '✅';
    GenerateFailedStyle();
    DeleteFailedStyle();
  }

  lemma GenerateFailedStyle()
    ensures !IsSuccessStyled(GenerateFailed)
  {
    FailureFirstHalf();
    FailureSecondHalf();
  }

  lemma FailureFirstHalf()
    ensures '✅' !in "❌ Generation failed."
  {
  }

  lemma FailureSecondHalf()
    ensures '✅' !in " Make sure KenPom data is uploaded."
  {
  }

  lemma DeleteFailedStyle()
    ensures !IsSuccessStyled(DeleteFailed)
  {
  }

  /** `brackets.length > 0`: the Delete All button, the export panel and the stats and table show. */
  predicate ShowsListPanels(brackets: seq<BracketRecord>) {
    |brackets| > 0
  }

  // ---------------------------------------------------------------------
  // The panel's state.

  class Panel {
    var generating: bool
    var message: string
    var brackets: seq<BracketRecord>
    var filter: string

    constructor ()
      ensures !generating && message == "" && brackets == [] && filter == All
    {
      generating := false;
      message := "";
      brackets := [];
      filter := All;
    }

    /** The rows the table shows for the current filter. */
    function Rows(): (r: seq<BracketRecord>)
      reads this
      ensures |r| <= TableRows
      ensures forall b :: b in r ==> b in brackets && (filter == All || b.strategy == filter)
    {
      VisibleRows(Filtered(brackets, filter))
    }

    /** The synchronous start of `handleGenerate`: the button disables and the message clears. */
    method StartGenerate()
      modifies this
      ensures generating && message == ""
      ensures brackets == old(brackets) && filter == old(filter)
    {
      generating := true;
      message := "";
    }

    /**
     * The end of `handleGenerate`: `generated` says whether the POST
     * succeeded and `loaded` is what the following reload returned (`None`
     * when it failed, which keeps the list).
     */
    method FinishGenerate(generated: bool, loaded: Option<seq<BracketRecord>>)
      modifies this
      ensures !generating
      ensures message == if generated then GenerateOk else GenerateFailed
      ensures brackets == if generated && loaded.Some? then loaded.value else old(brackets)
      ensures filter == old(filter)
    {
      if generated {
        message := GenerateOk;
        if loaded.Some? {
          brackets := loaded.value;
        }
      } else {
        message := GenerateFailed;
      }
      generating := false;
    }

    /** `handleGenerate` from the click to the `finally`. */
    method HandleGenerate(generated: bool, loaded: Option<seq<BracketRecord>>)
      modifies this
      ensures !generating
      ensures message == if generated then GenerateOk else GenerateFailed
      ensures IsSuccessStyled(message) <==> generated
      ensures brackets == if generated && loaded.Some? then loaded.value else old(brackets)
      ensures filter == old(filter)
    {
      StartGenerate();
      FinishGenerate(generated, loaded);
      MessageStyles();
    }

    /**
     * `handleDelete`: a declined confirmation changes nothing; otherwise the
     * message reports whether the DELETE succeeded. A declined or failed
     * delete keeps the list; what a successful one leaves in it is not
     * stated.
     */
    method HandleDelete(confirmed: bool, deleted: bool)
      modifies this
      ensures !confirmed ==> message == old(message)
      ensures confirmed ==> message == if deleted then DeleteOk else DeleteFailed
      ensures !confirmed || !deleted ==> brackets == old(brackets)
      ensures generating == old(generating) && filter == old(filter)
    {
      if !confirmed {
        return;
      }
      if deleted {
        message := DeleteOk;
      } else {
        message := DeleteFailed;
      }
    }

    /** The strategy drop-down. */
    method SetFilter(f: string)
      modifies this
      ensures filter == f && brackets == old(brackets) && message == old(message) && generating == old(generating)
    {
      filter := f;
    }
  }
}
