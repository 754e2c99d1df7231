/** The `/models` inline keyboard: one button per registry key, two per row. */
module Keyboard {
  import opened Registry
  import opened Inbound

  /** An inline-keyboard button: its text and its opaque callback data. */
  datatype Button = Button(text: string, callbackData: string)

  /** The button for one registry key: emoji and name, and `model_<key>` as its data. */
  function ModelButton(c: Catalog, key: string): Button
    requires key in c
  {
    Button(c[key].emoji + " " + c[key].name, "model_" + key)
  }

  /** One button per key of `keys`, in order. */
  function ButtonsFor(c: Catalog, keys: seq<string>): (bs: seq<Button>)
    requires forall k | k in keys :: k in c
    ensures |bs| == |keys|
    ensures forall i | 0 <= i < |bs| :: bs[i].callbackData == "model_" + keys[i]
  {
    seq(|keys|, i requires 0 <= i < |keys| => ModelButton(c, keys[i]))
  }

  /** One button per registry key, in key order. */
  function ModelButtons(c: Catalog): (bs: seq<Button>)
    requires Complete(c)
    ensures |bs| == |ModelKeys|
    ensures forall i | 0 <= i < |bs| :: bs[i].callbackData == "model_" + ModelKeys[i]
  {
    ButtonsFor(c, ModelKeys)
  }

  function Min(a: int, b: int): int
  {
    if a <= b then a else b
  }

  /** Row `r` holds buttons `2r` and `2r + 1`; only the last row can hold one. */
  function Pairs(bs: seq<Button>): seq<seq<Button>>
  {
    seq((|bs| + 1) / 2, r requires 0 <= r < (|bs| + 1) / 2 => bs[2 * r..Min(2 * r + 2, |bs|)])
  }

  /** The rows laid end to end. */
  function Flatten(rows: seq<seq<Button>>): seq<Button>
  {
    if rows == [] then [] else rows[0] + Flatten(rows[1..])
  }

  /** Halving facts used for the row count. */
  lemma HalfRoundedUp(n: nat, r: nat)
    ensures r < (n + 1) / 2 <==> 2 * r < n
    ensures n % 2 == 0 ==> (n + 1) / 2 == n / 2
  {
  }

  /** The keyboard of the `/models` handler over the key list `keys` (`Object.keys(availableModels)`):
      the loop `i += 2` pushes a row of button `i` and, when it exists, button `i + 1`. */
  method BuildKeyboard(c: Catalog, keys: seq<string>) returns (rows: seq<seq<Button>>)
    requires forall k | k in keys :: k in c
    ensures rows == Pairs(ButtonsFor(c, keys))
  {
    ghost var bs := ButtonsFor(c, keys);
    rows := [];
    var i := 0;
    while i < |keys|
      invariant 0 <= i <= |keys| + 1 && i == 2 * |rows|
      invariant forall r | 0 <= r < |rows| :: rows[r] == bs[2 * r..Min(2 * r + 2, |bs|)]
    {
      var row := [ModelButton(c, keys[i])];
      assert row == bs[i..i + 1];
      if i + 1 < |keys| {
        row := row + [ModelButton(c, keys[i + 1])];
        assert row == bs[i..i + 2];
      }
      rows := rows + [row];
      i := i + 2;
    }
    HalfRoundedUp(|bs|, |rows|);
    assert |rows| == (|bs| + 1) / 2;
  }

  /** Row shapes: (n + 1) / 2 rows, each of one or two buttons, all but the last of two. */
  lemma PairsShape(bs: seq<Button>)
    ensures |Pairs(bs)| == (|bs| + 1) / 2
    ensures forall r | 0 <= r < |Pairs(bs)| :: 1 <= |Pairs(bs)[r]| <= 2
    ensures forall r | 0 <= r < |Pairs(bs)| - 1 :: |Pairs(bs)[r]| == 2
  {
  }

  /** The rows laid end to end are exactly the buttons, in order. */
  lemma {:induction false} PairsFlatten(bs: seq<Button>)
    ensures Flatten(Pairs(bs)) == bs
    decreases |bs|
  {
    var rows := Pairs(bs);
    if |bs| <= 2 {
      if bs != [] {
        assert |rows| == 1;
        assert rows[0] == bs;
        assert rows == [bs];
        assert Flatten(rows) == bs + Flatten([]);
      }
    } else {
      var rest := Pairs(bs[2..]);
      assert |rows| == |rest| + 1;
      forall r | 0 <= r < |rest| ensures rows[r + 1] == rest[r] {
        HalfRoundedUp(|bs| - 2, r);
        HalfRoundedUp(|bs|, r + 1);
        assert rest[r] == bs[2..][2 * r..Min(2 * r + 2, |bs| - 2)];
        assert rows[r + 1] == bs[2 * r + 2..Min(2 * r + 4, |bs|)];
      }
      assert rows[1..] == rest;
      PairsFlatten(bs[2..]);
      assert rows[0] == bs[..2];
      assert bs == bs[..2] + bs[2..];
    }
  }

  /** The nine registry keys give five rows, the last holding one button. */
  lemma ModelKeyboardHasFiveRows(c: Catalog)
    requires Complete(c)
    ensures |Pairs(ModelButtons(c))| == 5
    ensures |Pairs(ModelButtons(c))[4]| == 1
  {
    RegistryKeysDistinct();
  }

  /** Pressing any button of the keyboard selects the registry key it was made for. */
  lemma ButtonsSelectTheirModel(c: Catalog, r: nat, col: nat)
    requires Complete(c)
    requires r < |Pairs(ModelButtons(c))| && col < |Pairs(ModelButtons(c))[r]|
    ensures ParseCallback(Pairs(ModelButtons(c))[r][col].callbackData) == ModelChoice(ModelKeys[2 * r + col])
    ensures ModelKeys[2 * r + col] in c
  {
    var bs := ModelButtons(c);
    assert Pairs(bs)[r][col] == bs[2 * r + col];
    KeysHaveNoUnderscore();
    ModelCallbackRoundTrip(ModelKeys[2 * r + col]);
  }
}
