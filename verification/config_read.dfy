/** Reading key bindings from a configuration document: a key is named by its
    identifier in the name table, a field holds either one name or a list of
    exactly N names, and every way of getting it wrong has its own error. */
module ConfigRead {
  import opened Results
  import opened KeyCodes

  /** What the visitor or the deserializer says it expected when a list has
      the wrong length. */
  datatype Expected =
    | Keybinds(n: nat)   // the visitor's own description, "sequence of N keybinds"
    | Elements(n: nat)   // the deserializer's, after the visitor took N elements

  datatype DeError =
    | NotAKey(name: string)
    | NotSingleBind(n: nat)
    | InvalidLength(len: nat, expected: Expected)
    | InvalidType

  /** The shape of a configuration value as the deserializer presents it: a
      bare string, a list of strings, or anything else. */
  datatype Node = Scalar(s: string) | List(items: seq<string>) | Other

  /** The first entry of `table` whose name is `s`, as `find_map` scans it. */
  function FindName(table: seq<(string, KeyCode)>, s: string): Option<KeyCode>
  {
    if |table| == 0 then None
    else if table[0].0 == s then Some(table[0].1)
    else FindName(table[1..], s)
  }

  /** The scan finds nothing exactly when no entry has the name, and otherwise
      finds the key of the first entry that has it. */
  lemma {:induction false} FindNameFirst(table: seq<(string, KeyCode)>, s: string)
    ensures FindName(table, s).None? <==> forall i | 0 <= i < |table| :: table[i].0 != s
    ensures FindName(table, s).Some? ==> exists i | 0 <= i < |table| ::
      table[i] == (s, FindName(table, s).value) && forall j | 0 <= j < i :: table[j].0 != s
  {
    if |table| == 0 {
    } else if table[0].0 == s {
      assert table[0] == (s, table[0].1);
    } else {
      var tail := table[1..];
      FindNameFirst(tail, s);
      assert forall i | 1 <= i < |table| :: table[i] == tail[i - 1];
      var r := FindName(tail, s);
      if r.Some? {
        var i :| 0 <= i < |tail| && tail[i] == (s, r.value) && forall j | 0 <= j < i :: tail[j].0 != s;
        assert table[i + 1] == (s, r.value);
      }
    }
  }

  /** `str_to_keybind`: the key code the table gives the name, or the error
      naming the string. The match is exact and case-sensitive. */
  function StrToKeybind(s: string): (r: Result<KeyCode, DeError>)
    ensures r.Err? ==> r.error == NotAKey(s)
  {
    match FindName(KEYCODES, s)
    case Some(k) => Ok(k)
    case None => Err(NotAKey(s))
  }

  /** A string is refused exactly when no entry of the table has it as its
      name; otherwise it reads as the key the table gives it, which is also
      what the lookup trie gives. */
  lemma StrToKeybindRefuses(s: string)
    ensures StrToKeybind(s).Err? <==> forall i | 0 <= i < |KEYCODES| :: KEYCODES[i].0 != s
    ensures StrToKeybind(s).Ok? ==> Decode(s) == Some(StrToKeybind(s).value)
  {
    FindNameFirst(KEYCODES, s);
    if StrToKeybind(s).Ok? {
      var i :| 0 <= i < |KEYCODES| && KEYCODES[i] == (s, StrToKeybind(s).value);
      DecodeTable();
      assert Decode(KEYCODES[i].0) == Some(KEYCODES[i].1);
    }
  }

  /** Every name in the table reads as its own key code: no name occurs twice,
      so the first match is the entry itself. */
  lemma StrToKeybindTable(j: int)
    requires 0 <= j < |KEYCODES|
    ensures StrToKeybind(KEYCODES[j].0) == Ok(KEYCODES[j].1)
  {
    var s := KEYCODES[j].0;
    StrToKeybindRefuses(s);
    DecodeTable();
    assert Decode(s) == Some(KEYCODES[j].1);
  }

  /** `visit_str`: a bare string stands for a one-element list, so it is
      accepted only when one key is wanted; otherwise the name is not even
      looked up. */
  function VisitStr(n: nat, s: string): (r: Result<seq<KeyCode>, DeError>)
    ensures n != 1 ==> r == Err(NotSingleBind(n))
    ensures n == 1 ==> (r.Ok? <==> StrToKeybind(s).Ok?)
    ensures r.Ok? ==> r.value == [StrToKeybind(s).value]
    ensures n == 1 && r.Err? ==> r.error == NotAKey(s)
  {
    if n == 1 then
      match StrToKeybind(s)
      case Ok(k) => Ok([k])
      case Err(e) => Err(e)
    else
      Err(NotSingleBind(n))
  }

  /** The loop of `visit_seq` from position `i`: take the next element, fail
      with the count so far when there is none, fail on the first name that is
      not a key, and stop after `n` elements. */
  function ParseFrom(n: nat, items: seq<string>, i: nat): (r: Result<seq<KeyCode>, DeError>)
    requires i <= n
    ensures r.Ok? ==> |r.value| == n - i
    ensures r.Ok? && i < n ==> n <= |items|
    decreases n - i
  {
    if i == n then Ok([])
    else if i >= |items| then Err(InvalidLength(i, Keybinds(n)))
    else
      match StrToKeybind(items[i])
      case Err(e) => Err(e)
      case Ok(k) =>
        match ParseFrom(n, items, i + 1)
        case Err(e) => Err(e)
        case Ok(ks) => Ok([k] + ks)
  }

  /** `visit_seq`: the first `n` elements, read in order. */
  function VisitSeq(n: nat, items: seq<string>): (r: Result<seq<KeyCode>, DeError>)
    ensures r.Ok? ==> |r.value| == n
    ensures r.Ok? && 0 < n ==> n <= |items|
  {
    ParseFrom(n, items, 0)
  }

  /** All of the first `n` elements exist and name keys. */
  ghost predicate AllKeys(n: nat, items: seq<string>)
  {
    n <= |items| && forall j | 0 <= j < n :: StrToKeybind(items[j]).Ok?
  }

  /** From position `i`, the loop succeeds exactly when the elements `i` to
      `n - 1` exist and are all names of keys, and then it returns their key
      codes in list order. */
  lemma {:induction false} ParseFromOk(n: nat, items: seq<string>, i: nat)
    requires i <= n
    ensures ParseFrom(n, items, i).Ok? <==>
      (i == n || n <= |items|) && forall j | i <= j < n :: StrToKeybind(items[j]).Ok?
    ensures ParseFrom(n, items, i).Ok? ==>
      |ParseFrom(n, items, i).value| == n - i &&
      forall j | i <= j < n :: ParseFrom(n, items, i).value[j - i] == StrToKeybind(items[j]).value
    decreases n - i
  {
    if i < n && i < |items| {
      ParseFromOk(n, items, i + 1);
      var r := StrToKeybind(items[i]);
      if r.Ok? {
        var rest := ParseFrom(n, items, i + 1);
        if rest.Ok? {
          assert ParseFrom(n, items, i).value == [r.value] + rest.value;
        }
      }
    }
  }

  /** One step of the loop: a key at position `i` goes in front of whatever
      the rest of the loop reads. */
  lemma ParseFromStep(n: nat, items: seq<string>, i: nat, k: KeyCode, ks: seq<KeyCode>)
    requires i < n && i < |items|
    requires StrToKeybind(items[i]) == Ok(k)
    requires ParseFrom(n, items, i + 1) == Ok(ks)
    ensures ParseFrom(n, items, i) == Ok([k] + ks)
  {
  }

  /** `visit_seq` succeeds exactly when the first `n` elements exist and are
      all names of keys, and then it gives their key codes in order. */
  lemma VisitSeqOk(n: nat, items: seq<string>)
    ensures VisitSeq(n, items).Ok? <==> AllKeys(n, items)
    ensures VisitSeq(n, items).Ok? ==>
      |VisitSeq(n, items).value| == n &&
      forall j | 0 <= j < n :: VisitSeq(n, items).value[j] == StrToKeybind(items[j]).value
  {
    ParseFromOk(n, items, 0);
  }

  /** A list of valid names that is too short fails with its own length. */
  lemma {:induction false} ParseFromShort(n: nat, items: seq<string>, i: nat)
    requires i <= |items| < n
    requires forall j | i <= j < |items| :: StrToKeybind(items[j]).Ok?
    ensures ParseFrom(n, items, i) == Err(InvalidLength(|items|, Keybinds(n)))
    decreases |items| - i
  {
    if i < |items| {
      ParseFromShort(n, items, i + 1);
    }
  }

  /** The first element among the first `n` that is not the name of a key
      aborts the whole list with that element's error. */
  lemma {:induction false} ParseFromFirstBad(n: nat, items: seq<string>, i: nat, bad: nat)
    requires i <= bad < n && bad < |items|
    requires forall j | i <= j < bad :: StrToKeybind(items[j]).Ok?
    requires StrToKeybind(items[bad]).Err?
    ensures ParseFrom(n, items, i) == Err(NotAKey(items[bad]))
    decreases bad - i
  {
    if i < bad {
      ParseFromFirstBad(n, items, i + 1, bad);
    }
  }

  /** What the deserializer does with a field of `n` keys: a bare string goes
      to `visit_str`, a list to `visit_seq`, and any other value is refused.
      After `visit_seq` succeeds, elements it left unread make the whole list
      fail with the list's full length. */
  function KeybindList(n: nat, node: Node): (r: Result<seq<KeyCode>, DeError>)
    ensures r.Ok? ==> |r.value| == n
    ensures node.List? && r.Ok? ==> |node.items| == n
    ensures node.Other? ==> r == Err(InvalidType)
  {
    match node
    case Scalar(s) => VisitStr(n, s)
    case List(items) =>
      (match VisitSeq(n, items)
       case Err(e) => Err(e)
       case Ok(ks) => if |items| > n then Err(InvalidLength(|items|, Elements(n))) else Ok(ks))
    case Other => Err(InvalidType)
  }

  /** `keybind`: a single key, written either as a bare name or as a list of
      exactly one name; anything else is refused. */
  function Keybind(node: Node): (r: Result<KeyCode, DeError>)
    ensures node.Scalar? ==> r == StrToKeybind(node.s)
    ensures node.List? ==> (r.Ok? <==> |node.items| == 1 && StrToKeybind(node.items[0]).Ok?)
    ensures node.List? && r.Ok? ==> r.value == StrToKeybind(node.items[0]).value
    ensures node.Other? ==> r == Err(InvalidType)
  {
    if node.List? then
      KeybindListOfList(1, node.items);
      KeybindOf(node)
    else
      KeybindOf(node)
  }

  function KeybindOf(node: Node): Result<KeyCode, DeError>
  {
    match KeybindList(1, node)
    case Ok(ks) => Ok(ks[0])
    case Err(e) => Err(e)
  }

  /** A list field is read exactly when it has exactly `n` elements that all
      name keys, and then the keys come in list order. */
  lemma KeybindListOfList(n: nat, items: seq<string>)
    ensures KeybindList(n, List(items)).Ok? <==> |items| == n && AllKeys(n, items)
    ensures KeybindList(n, List(items)).Ok? ==>
      |KeybindList(n, List(items)).value| == n &&
      forall j | 0 <= j < n :: KeybindList(n, List(items)).value[j] == StrToKeybind(items[j]).value
  {
    VisitSeqOk(n, items);
  }

  /** A list longer than `n` whose first `n` names are keys is refused by the
      deserializer with its full length. */
  lemma KeybindListTooLong(n: nat, items: seq<string>)
    requires n < |items| && AllKeys(n, items)
    ensures KeybindList(n, List(items)) == Err(InvalidLength(|items|, Elements(n)))
  {
    VisitSeqOk(n, items);
  }

  /** A list shorter than `n` whose names are keys fails with its own length. */
  lemma KeybindListTooShort(n: nat, items: seq<string>)
    requires |items| < n
    requires forall j | 0 <= j < |items| :: StrToKeybind(items[j]).Ok?
    ensures KeybindList(n, List(items)) == Err(InvalidLength(|items|, Keybinds(n)))
  {
    ParseFromShort(n, items, 0);
  }

  /** A single key reads the same from a bare name and from a one-element
      list. */
  lemma KeybindEitherForm(s: string)
    ensures Keybind(Scalar(s)) == Keybind(List([s]))
    ensures StrToKeybind(s).Ok? ==> Keybind(Scalar(s)) == Ok(StrToKeybind(s).value)
    ensures StrToKeybind(s).Err? ==> Keybind(Scalar(s)) == Err(NotAKey(s))
  {
    VisitSeqOk(1, [s]);
  }

  /** The keys the default configuration names read as themselves. */
  lemma DefaultKeyNames()
    ensures StrToKeybind("W") == Ok(W) && StrToKeybind("A") == Ok(A)
    ensures StrToKeybind("S") == Ok(S) && StrToKeybind("D") == Ok(D)
    ensures StrToKeybind("Space") == Ok(Space) && StrToKeybind("J") == Ok(J)
  {
    StrToKeybindTable(32);
    StrToKeybindTable(10);
    StrToKeybindTable(28);
    StrToKeybindTable(13);
    StrToKeybindTable(76);
    StrToKeybindTable(19);
  }

  /** The configuration `movement: [W, A, S, D]` reads as those four keys in
      that order. */
  lemma ReadsMovementKeys()
    ensures KeybindList(4, List(["W", "A", "S", "D"])) == Ok([W, A, S, D])
  {
    DefaultKeyNames();
    var items := ["W", "A", "S", "D"];
    assert ParseFrom(4, items, 4) == Ok([]);
    ParseFromStep(4, items, 3, D, []);
    assert [D] + [] == [D];
    ParseFromStep(4, items, 2, S, [D]);
    assert [S] + [D] == [S, D];
    ParseFromStep(4, items, 1, A, [S, D]);
    assert [A] + [S, D] == [A, S, D];
    ParseFromStep(4, items, 0, W, [A, S, D]);
    assert [W] + [A, S, D] == [W, A, S, D];
  }

  /** `jump: Space` and `crouch: [J]` read as single keys, bare or listed. */
  lemma ReadsSingleKeys()
    ensures Keybind(Scalar("Space")) == Ok(Space)
    ensures Keybind(List(["J"])) == Ok(J)
  {
    DefaultKeyNames();
    KeybindEitherForm("Space");
    KeybindEitherForm("J");
  }

  /** Five movement keys where four are wanted are refused by the
      deserializer, which reports the full length against four elements. */
  lemma RejectsLongList()
    ensures KeybindList(4, List(["W", "A", "S", "D", "F"])) == Err(InvalidLength(5, Elements(4)))
  {
    DefaultKeyNames();
    KeybindListTooLong(4, ["W", "A", "S", "D", "F"]);
  }

  /** Two movement keys where four are wanted are refused by the visitor,
      which reports the two it found against four keybinds. */
  lemma RejectsShortList()
    ensures KeybindList(4, List(["W", "A"])) == Err(InvalidLength(2, Keybinds(4)))
  {
    DefaultKeyNames();
    KeybindListTooShort(4, ["W", "A"]);
  }

  /** Two keys where a single one is wanted are refused with the length of the
      list against one element. */
  lemma RejectsListForSingle()
    ensures Keybind(List(["W", "A"])) == Err(InvalidLength(2, Elements(1)))
  {
    DefaultKeyNames();
    KeybindListTooLong(1, ["W", "A"]);
  }

  /** A name that is not in the table is refused with the name itself. */
  lemma RejectsUnknownName()
    ensures Keybind(Scalar("NOTKEY")) == Err(NotAKey("NOTKEY"))
  {
    StrToKeybindRefuses("NOTKEY");
    assert Decode("NOTKEY") == None;
    KeybindEitherForm("NOTKEY");
  }
}
