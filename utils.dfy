/** The shared label and colour helpers: job status and payment status to badge
    classes and display labels. */
module Utils {
  import opened Text

  const YellowClass := "bg-yellow-100 text-yellow-800 border-yellow-200"
  const BlueClass := "bg-blue-100 text-blue-800 border-blue-200"
  const GreenClass := "bg-green-100 text-green-800 border-green-200"
  const PurpleClass := "bg-purple-100 text-purple-800 border-purple-200"
  const RedClass := "bg-red-100 text-red-800 border-red-200"
  const GrayClass := "bg-gray-100 text-gray-800 border-gray-200"

  /** The five job statuses the screens know. */
  const JobStatuses: set<string> := {"pending", "in-progress", "completed", "awaiting-payment", "cancelled"}

  /** The three payment statuses the screens know. */
  const PaymentStatuses: set<string> := {"paid", "partially-paid", "unpaid"}

  /** `getStatusColor`: a colour per known job status, gray for anything else. */
  function StatusColor(status: string): (r: string)
    ensures r == GrayClass <==> status !in JobStatuses
    ensures r in {YellowClass, BlueClass, GreenClass, PurpleClass, RedClass, GrayClass}
  {
    match status
    case "pending" => YellowClass
    case "in-progress" => BlueClass
    case "completed" => GreenClass
    case "awaiting-payment" => PurpleClass
    case "cancelled" => RedClass
    case _ => GrayClass
  }

  /** Different known statuses never share a badge colour. */
  lemma StatusColorInjective(a: string, b: string)
    requires a in JobStatuses && b in JobStatuses
    requires StatusColor(a) == StatusColor(b)
    ensures a == b
  {
  }

  /** `getPaymentStatusColor`: a colour per known payment status, gray for anything else. */
  function PaymentStatusColor(status: string): (r: string)
    ensures r == GrayClass <==> status !in PaymentStatuses
    ensures r in {GreenClass, BlueClass, RedClass, GrayClass}
  {
    match status
    case "paid" => GreenClass
    case "partially-paid" => BlueClass
    case "unpaid" => RedClass
    case _ => GrayClass
  }

  lemma PaymentStatusColorInjective(a: string, b: string)
    requires a in PaymentStatuses && b in PaymentStatuses
    requires PaymentStatusColor(a) == PaymentStatusColor(b)
    ensures a == b
  {
  }

  /** `getStatusLabel`: two hyphenated statuses get fixed labels; any other status has
      its first character upper-cased and the rest kept. The label is never longer or
      shorter than the status. */
  function StatusLabel(status: string): (r: string)
    ensures |r| == |status|
    ensures status == "in-progress" ==> r == "In Progress"
    ensures status == "awaiting-payment" ==> r == "Awaiting Payment"
    ensures status != "in-progress" && status != "awaiting-payment" && |status| > 0 ==>
              r[0] == UpperChar(status[0]) && r[1..] == status[1..]
    ensures status == "" ==> r == ""
  {
    if status == "in-progress" then "In Progress"
    else if status == "awaiting-payment" then "Awaiting Payment"
    else Capitalize(status)
  }

  /** What `getPaymentStatusLabel` puts at index i of its result: a '-' becomes a space,
      the first character and every character after a '-' is upper-cased, the rest is kept. */
  function LabelCharAt(s: string, i: int): char
    requires 0 <= i < |s|
  {
    WordCharAt(s, true, i)
  }

  /** Like LabelCharAt, where `start` says whether a word begins at index 0. */
  function WordCharAt(s: string, start: bool, i: int): char
    requires 0 <= i < |s|
  {
    if s[i] == '-' then ' '
    else if (i == 0 && start) || (i > 0 && s[i - 1] == '-') then UpperChar(s[i])
    else s[i]
  }

  /** `getPaymentStatusLabel`: split at '-', capitalise each word, join with spaces.
      Character by character that is LabelCharAt, so the label is as long as the status
      and holds no '-'. */
  function PaymentStatusLabel(status: string): (r: string)
    ensures |r| == |status|
    ensures forall i :: 0 <= i < |status| ==> r[i] == LabelCharAt(status, i)
    ensures '-' !in r
  {
    LabelWordsAgree(status, true);
    LabelWordsChars(status, true);
    Join(CapitalizeAll(Split(status, '-')), " ")
  }

  /** The label built one character at a time; `start` says a word begins here. */
  function LabelWords(t: string, start: bool): string
    decreases |t|
  {
    if t == [] then []
    else if t[0] == '-' then " " + LabelWords(t[1..], true)
    else [if start then UpperChar(t[0]) else t[0]] + LabelWords(t[1..], false)
  }

  lemma {:induction false} LabelWordsChars(t: string, start: bool)
    ensures |LabelWords(t, start)| == |t|
    ensures forall i :: 0 <= i < |t| ==> LabelWords(t, start)[i] == WordCharAt(t, start, i)
    decreases |t|
  {
    if t != [] {
      var b := t[0] == '-';
      var u := t[1..];
      LabelWordsChars(u, b);
      var w := LabelWords(u, b);
      var r := LabelWords(t, start);
      assert r[1..] == w;
      forall i | 0 <= i < |t| ensures r[i] == WordCharAt(t, start, i) {
        if i > 0 {
          var j := i - 1;
          assert r[i] == w[j] == WordCharAt(u, b, j);
          assert u[j] == t[i];
          if j == 0 {
            assert b == (t[i - 1] == '-');
          } else {
            assert u[j - 1] == t[i - 1];
          }
        }
      }
    }
  }

  lemma JoinConsPrefix(x: string, a: string, rest: seq<string>, sep: string)
    ensures Join([x + a] + rest, sep) == x + Join([a] + rest, sep)
  {
    if rest != [] {
      assert ([x + a] + rest)[1..] == rest;
      assert ([a] + rest)[1..] == rest;
    }
  }

  /** The split/capitalise/join pipeline with the first word capitalised or not. */
  function JoinedWords(t: string, start: bool): string {
    var p := Split(t, '-');
    Join([if start then Capitalize(p[0]) else p[0]] + CapitalizeAll(p[1..]), " ")
  }

  /** The split/capitalise/join pipeline equals the character-by-character label;
      when `start` is false the first word is left as it is. */
  lemma {:induction false} LabelWordsAgree(t: string, start: bool)
    ensures JoinedWords(t, start) == LabelWords(t, start)
    ensures start ==> Join(CapitalizeAll(Split(t, '-')), " ") == LabelWords(t, true)
    decreases |t|
  {
    if t != [] {
      if t[0] == '-' {
        LabelWordsAgree(t[1..], true);
        DashAgrees(t, start);
      } else {
        LabelWordsAgree(t[1..], false);
        LetterAgrees(t, start);
      }
    }
    var p := Split(t, '-');
    assert start ==> [Capitalize(p[0])] + CapitalizeAll(p[1..]) == CapitalizeAll(p);
  }

  /** A '-' ends the first word: it is empty and a space starts the rest. */
  lemma DashAgrees(t: string, start: bool)
    requires t != [] && t[0] == '-'
    requires JoinedWords(t[1..], true) == LabelWords(t[1..], true)
    ensures JoinedWords(t, start) == LabelWords(t, start)
  {
    var p, q := Split(t, '-'), Split(t[1..], '-');
    assert p == [""] + q;
    assert p[1..] == q;
    assert [Capitalize(q[0])] + CapitalizeAll(q[1..]) == CapitalizeAll(q);
    assert ([""] + CapitalizeAll(q))[1..] == CapitalizeAll(q);
  }

  /** Any other character opens or continues the first word. */
  lemma LetterAgrees(t: string, start: bool)
    requires t != [] && t[0] != '-'
    requires JoinedWords(t[1..], false) == LabelWords(t[1..], false)
    ensures JoinedWords(t, start) == LabelWords(t, start)
  {
    var p, q := Split(t, '-'), Split(t[1..], '-');
    assert p == [[t[0]] + q[0]] + q[1..];
    var x := [if start then UpperChar(t[0]) else t[0]];
    assert (if start then Capitalize(p[0]) else p[0]) == x + q[0];
    assert p[1..] == q[1..];
    JoinConsPrefix(x, q[0], CapitalizeAll(q[1..]), " ");
  }

  /** On a status without '-' the two label helpers agree. */
  lemma StatusLabelMatchesPaymentStyle(status: string)
    requires '-' !in status
    ensures StatusLabel(status) == PaymentStatusLabel(status)
  {
    var r := PaymentStatusLabel(status);
    var l := StatusLabel(status);
    forall i | 0 <= i < |status| ensures l[i] == r[i] {
      assert status[i] != '-';
      if i > 0 { assert status[i - 1] != '-'; }
    }
  }
}
