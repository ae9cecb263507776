/**
 * `Historico`: the append-only list of movement lines kept by each account.
 * The wall-clock time `datetime.now()` is not modelled; the caller passes
 * the already formatted timestamp.
 */
module Histories {

  /** What `__str__` returns for an account without movements. */
  const EmptyMessage: string := "Não foram realizadas movimentações."

  /** One recorded movement: its timestamp and its description. */
  datatype Movement = Movement(timestamp: string, description: string)
  {
    /** The line stored for this movement: `"<timestamp> - <description>"`. */
    function Line(): (s: string)
      ensures '-' in s
    {
      var s := timestamp + " - " + description;
      assert s[|timestamp| + 1] == '-';
      s
    }
  }

  /**
   * Python's `"\n".join(lines)`: the text opens with the first line and
   * has one character more than the lines for each gap between them.
   */
  function Join(lines: seq<string>): (r: string)
    ensures |lines| > 0 ==> lines[0] <= r
    ensures |r| == TotalLength(lines) + (if |lines| == 0 then 0 else |lines| - 1)
  {
    if |lines| == 0 then ""
    else if |lines| == 1 then lines[0]
    else lines[0] + "\n" + Join(lines[1..])
  }

  function TotalLength(lines: seq<string>): nat {
    if lines == [] then 0 else |lines[0]| + TotalLength(lines[1..])
  }

  /** Joining keeps every character of every line. */
  lemma {:induction false} JoinKeeps(lines: seq<string>, i: nat, c: char)
    requires i < |lines| && c in lines[i]
    ensures c in Join(lines)
    decreases |lines|
  {
    if |lines| > 1 {
      if i == 0 {
        assert Join(lines) == lines[0] + ("\n" + Join(lines[1..]));
      } else {
        JoinKeeps(lines[1..], i - 1, c);
        assert Join(lines) == (lines[0] + "\n") + Join(lines[1..]);
      }
    }
  }

  /** Joining after one more line extends the old text by a newline and that line. */
  lemma {:induction false} JoinSnoc(lines: seq<string>, line: string)
    ensures Join(lines + [line]) == if lines == [] then line else Join(lines) + "\n" + line
    decreases |lines|
  {
    if |lines| > 1 {
      assert (lines + [line])[1..] == lines[1..] + [line];
      JoinSnoc(lines[1..], line);
    } else if |lines| == 1 {
      assert (lines + [line])[1..] == [line];
    }
  }

  lemma EmptyMessageHasNoDash()
    ensures '-' !in EmptyMessage
  {
  }

  class History {
    /** `transacoes`: the stored lines, oldest first. */
    var entries: seq<string>
    /** The movement each stored line was made from. */
    ghost var movements: seq<Movement>

    ghost predicate Valid()
      reads this
    {
      |entries| == |movements| &&
      forall i :: 0 <= i < |entries| ==> entries[i] == movements[i].Line()
    }

    constructor ()
      ensures Valid() && entries == [] && movements == []
    {
      entries, movements := [], [];
    }

    /** `adicionar_transacao`: appends one line and leaves the earlier ones alone. */
    method Add(timestamp: string, description: string)
      requires Valid()
      modifies this
      ensures Valid()
      ensures movements == old(movements) + [Movement(timestamp, description)]
      ensures entries == old(entries) + [timestamp + " - " + description]
      ensures |entries| == |old(entries)| + 1 && entries[..|old(entries)|] == old(entries)
      ensures Render() == if old(entries) == [] then entries[|entries| - 1]
                          else old(Render()) + "\n" + entries[|entries| - 1]
    {
      var m := Movement(timestamp, description);
      JoinSnoc(entries, m.Line());
      entries, movements := entries + [m.Line()], movements + [m];
    }

    /** `__str__`: the fixed message when there is nothing, otherwise the lines joined by newlines. */
    function Render(): (r: string)
      reads this
      ensures Valid() ==> (r == EmptyMessage <==> entries == [])
    {
      if entries == [] then EmptyMessage
      else
        var r := Join(entries);
        assert Valid() ==> r != EmptyMessage by {
          if Valid() {
            JoinKeeps(entries, 0, '-');
            EmptyMessageHasNoDash();
          }
        }
        r
    }
  }
}
