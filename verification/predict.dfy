/**
 * The prediction screen (`PredictActivity`): one turn of the prediction dialog reads a tag and,
 * for a question, its prompt and child count; the OK button sends the chosen child and runs the
 * next turn.
 */
module Prediction {
  import opened Wrappers
  import opened Decimal
  import opened Wire
  import opened Session

  const QUERY := "QUERY"
  const PREDICTION_OK := "OK"

  /**
   * What a turn ends with: a question with the choices offered in the spinner, the predicted
   * value shown in a dialog, a tag the screen ignores, or an uncaught exception (`toString()` of
   * the `null` a failed read returns, or `parseInt` of a count that is not a number).
   */
  datatype Turn = Query(prompt: string, choices: seq<int>) | Predicted(answer: string) | Ignored(tag: string) | Crashed

  /** The spinner's items for `n` children: 0, 1, ..., n - 1. */
  function Choices(n: int): seq<int>
  {
    seq(if n < 0 then 0 else n, i => i)
  }

  /** How many incoming values a step from `c` to `d` consumed. */
  function Consumed(c: Channel, d: Channel): int
  {
    |c.incoming| - |d.incoming|
  }

  /** The turn as a function of the channel: the outcome and the channel after it. */
  function TurnSpec(c: Channel): (r: (Turn, Channel))
    ensures r.1.outgoing == c.outgoing && r.1.closed == c.closed
    ensures 0 <= Consumed(c, r.1) <= 3 && r.1.incoming == c.incoming[Consumed(c, r.1)..]
    ensures !c.closed && c.incoming != [] ==> Consumed(c, r.1) >= 1
    ensures r.0.Query? ==>
              Consumed(c, r.1) == 3 && Show(c.incoming[0]) == QUERY
              && r.0.prompt == Show(c.incoming[1])
              && ParseInt(Show(c.incoming[2])).Some?
              && r.0.choices == Choices(ParseInt(Show(c.incoming[2])).value)
    ensures r.0.Predicted? ==>
              Consumed(c, r.1) == 2 && Show(c.incoming[0]) == PREDICTION_OK
              && r.0.answer == Show(c.incoming[1])
    ensures r.0.Ignored? ==>
              Consumed(c, r.1) == 1 && r.0.tag == Show(c.incoming[0])
              && r.0.tag != QUERY && r.0.tag != PREDICTION_OK
  {
    var (c1, tag) := Read(c);
    if tag.None? then (Crashed, c1)
    else if Show(tag.value) == QUERY then
      var (c2, prompt) := Read(c1);
      if prompt.None? then (Crashed, c2)
      else
        var (c3, count) := Read(c2);
        if count.None? then (Crashed, c3)
        else
          match ParseInt(Show(count.value))
          case None => (Crashed, c3)
          case Some(n) => (Query(Show(prompt.value), Choices(n)), c3)
    else if Show(tag.value) == PREDICTION_OK then
      var (c2, answer) := Read(c1);
      if answer.None? then (Crashed, c2) else (Predicted(Show(answer.value)), c2)
    else (Ignored(Show(tag.value)), c1)
  }

  /**
   * Which outcome a turn on an open channel has, by what the server sent: a question needs the
   * tag, the prompt and a count that parses; a prediction needs the tag and the answer; any other
   * tag is ignored; everything else ends in an exception.
   */
  lemma TurnOutcomes(c: Channel)
    requires !c.closed
    ensures TurnSpec(c).0.Query? <==>
              |c.incoming| >= 3 && Show(c.incoming[0]) == QUERY && ParseInt(Show(c.incoming[2])).Some?
    ensures TurnSpec(c).0.Predicted? <==> |c.incoming| >= 2 && Show(c.incoming[0]) == PREDICTION_OK
    ensures TurnSpec(c).0.Ignored? <==>
              |c.incoming| >= 1 && Show(c.incoming[0]) != QUERY && Show(c.incoming[0]) != PREDICTION_OK
  {
  }

  /** A count the server sends as an `Integer` becomes exactly that many choices 0..n-1. */
  lemma IntegerCountGivesChoices(c: Channel, n: Int32)
    requires !c.closed && |c.incoming| >= 3 && Show(c.incoming[0]) == QUERY && c.incoming[2] == IntV(n)
    ensures TurnSpec(c).0 == Query(Show(c.incoming[1]), Choices(n))
  {
    IntReplyRoundTrip(n);
  }

  /** The `for` loop that fills the spinner: the items 0, 1, ..., n - 1 in increasing order. */
  method FillChoices(numberOfChildren: Int32) returns (choices: seq<int>)
    ensures |choices| == if numberOfChildren < 0 then 0 else numberOfChildren as int
    ensures forall i :: 0 <= i < |choices| ==> choices[i] == i
  {
    choices := [];
    var i := 0;
    while i < numberOfChildren
      invariant 0 <= i && (numberOfChildren < 0 ==> i == 0) && (numberOfChildren >= 0 ==> i <= numberOfChildren)
      invariant |choices| == i
      invariant forall k :: 0 <= k < i ==> choices[k] == k
    {
      choices := choices + [i];
      i := i + 1;
    }
  }

  class PredictActivity {
    const client: Client
    /** The text of the prompt view. */
    var prompt: string
    /** The items of the spinner. */
    var choices: seq<int>
    /** The message of the prediction dialog, once shown. */
    var prediction: Option<string>

    /** The spinner holds 0, 1, ..., n - 1 for some `int` n. */
    ghost predicate Valid()
      reads this
    {
      |choices| < 0x8000_0000 && forall i :: 0 <= i < |choices| ==> choices[i] == i
    }

    /** A new screen talks through the client's single instance. */
    constructor (app: Statics)
      ensures client == app.GetInstance()
      ensures prompt == "" && choices == [] && prediction == None && Valid()
    {
      client := app.GetInstance();
      prompt := "";
      choices := [];
      prediction := None;
    }

    /**
     * `predictTree`: one turn. A question sets the prompt and the spinner's items, a prediction
     * is shown in the dialog, and any other tag changes nothing.
     */
    method PredictTree() returns (t: Turn)
      requires client.HasChannel() && Valid()
      modifies this, client`socketContainer
      ensures Valid() && client.HasChannel()
      ensures (t, client.Chan()) == TurnSpec(old(client.Chan()))
      ensures t.Query? ==> prompt == t.prompt && choices == t.choices
      ensures !t.Query? ==> choices == old(choices)
      ensures t.Predicted? || t.Ignored? ==> prompt == old(prompt)
      ensures prediction == if t.Predicted? then Some(t.answer) else old(prediction)
    {
      var tag := client.ReadObjectFromSocket();
      if tag.None? {
        return Crashed;
      }
      if tag.value == QUERY {
        var p := client.ReadObjectFromSocket();
        if p.None? {
          return Crashed;
        }
        prompt := p.value;
        var count := client.ReadObjectFromSocket();
        if count.None? {
          return Crashed;
        }
        var numberOfChildren := ParseInt(count.value);
        if numberOfChildren.None? {
          return Crashed;
        }
        var items := FillChoices(numberOfChildren.value);
        assert items == Choices(numberOfChildren.value);
        choices := items;
        t := Query(p.value, items);
      } else if tag.value == PREDICTION_OK {
        var answer := client.ReadObjectFromSocket();
        if answer.None? {
          return Crashed;
        }
        prediction := Some(answer.value);
        t := Predicted(answer.value);
      } else {
        t := Ignored(tag.value);
      }
    }

    /** `onCreate`: code 6 is sent, then the first turn runs. */
    method OnCreate() returns (t: Turn)
      requires client.HasChannel() && Valid()
      modifies this, client`socketContainer
      ensures Valid() && client.HasChannel()
      ensures client.Chan().outgoing == Write(old(client.Chan()), [IntV(6)]).outgoing
      ensures (t, client.Chan()) == TurnSpec(Write(old(client.Chan()), [IntV(6)]))
      ensures t.Query? ==> prompt == t.prompt && choices == t.choices
      ensures !t.Query? ==> choices == old(choices)
      ensures t.Predicted? || t.Ignored? ==> prompt == old(prompt)
      ensures prediction == if t.Predicted? then Some(t.answer) else old(prediction)
    {
      client.StartPredictionMode();
      t := PredictTree();
    }

    /**
     * The OK button with the spinner at position `selection`: the selected child is sent as an
     * integer, then the next turn runs. Since the items are 0..n-1, the value sent is `selection`
     * itself and lies in [0, n). With an empty spinner there is no selected item and the button
     * throws before sending anything.
     */
    method OnOk(selection: nat) returns (t: Turn)
      requires client.HasChannel() && Valid()
      requires choices != [] ==> selection < |choices|
      modifies this, client`socketContainer
      ensures Valid() && client.HasChannel()
      ensures old(choices) == [] ==> t == Crashed && client.Chan() == old(client.Chan())
      ensures old(choices) != [] ==>
                old(choices)[selection] == selection && selection < |old(choices)|
                && (t, client.Chan()) == TurnSpec(Write(old(client.Chan()), [IntV(selection as Int32)]))
      ensures old(choices) != [] && t.Query? ==> prompt == t.prompt && choices == t.choices
      ensures !t.Query? ==> choices == old(choices)
      ensures t.Predicted? || t.Ignored? ==> prompt == old(prompt)
      ensures prediction == if t.Predicted? then Some(t.answer) else old(prediction)
    {
      if choices == [] {
        return Crashed;
      }
      var item: Int32 := choices[selection];
      var sent := ParseInt(IntToString(item));
      ParseIntOfToString(item);
      client.WriteObjectToSocket(IntV(sent.value));
      t := PredictTree();
    }
  }
}
