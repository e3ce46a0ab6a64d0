/** What the three record forms share: ids made of a prefix and a random number in
    0..9999 padded to four digits, and the save that replaces the record being edited or
    appends a new one to the stored list. The random number is the parameter `n`. */
module Records {
  import opened Wrappers
  import opened Text
  import opened Collections

  /** `n.toString().padStart(4, '0')` for `n = Math.floor(Math.random() * 10000)`. */
  function Pad4(n: nat): (r: string)
    requires n < 10000
    ensures |r| == 4 && AllDigits(r) && ParseNat(r) == n
  {
    var d := NatToString(n);
    NatToStringShort(n, 4);
    ParseNatToString(n);
    ParseNatLeadingZeros(4 - |d|, d);
    PadStart(d, 4, '0')
  }

  /** A new record's id: the prefix and four digits that read back as `n`. */
  function NewId(prefix: string, n: nat): (r: string)
    requires n < 10000
    ensures |r| == |prefix| + 4 && StartsWith(r, prefix)
    ensures AllDigits(r[|prefix|..]) && ParseNat(r[|prefix|..]) == n
  {
    StartsWithAppend(prefix, Pad4(n));
    assert (prefix + Pad4(n))[|prefix|..] == Pad4(n);
    prefix + Pad4(n)
  }

  /** The stored list after a save: in edit mode every record with the edited id
      becomes the record, otherwise the record is pushed onto the end. */
  function Upserted<T(!new)>(existing: seq<T>, key: T -> string, editId: string, rec: T): (r: seq<T>)
    ensures editId != "" ==> |r| == |existing|
    ensures editId != "" ==> forall i :: 0 <= i < |existing| ==>
              r[i] == (if key(existing[i]) == editId then rec else existing[i])
    ensures editId == "" ==> |r| == |existing| + 1 && r[..|existing|] == existing && r[|existing|] == rec
  {
    if editId != "" then ReplaceWhere(existing, key, editId, rec)
    else
      var r := existing + [rec];
      assert r[..|existing|] == existing;
      r
  }

  /** After a save the record can be found under its own id: as the first match when it
      was added under an id nobody had, and as every match when it replaced the edited
      record under that record's id. */
  lemma UpsertedFinds<T(!new)>(existing: seq<T>, key: T -> string, editId: string, rec: T)
    ensures editId == "" && !HasKey(existing, key, key(rec)) ==>
              FindFirst(Upserted(existing, key, editId, rec), x => key(x) == key(rec)) == Some(rec)
    ensures editId != "" && key(rec) == editId ==>
              forall x :: x in Upserted(existing, key, editId, rec) && key(x) == editId ==> x == rec
  {
    var r := Upserted(existing, key, editId, rec);
    if editId == "" && !HasKey(existing, key, key(rec)) {
      assert r[|existing|] == rec;
      assert forall j :: 0 <= j < |existing| ==> r[j] == existing[j];
      assert forall j :: 0 <= j < |existing| ==> key(r[j]) != key(rec);
    }
  }

  /** Saving the edited record again changes nothing more. */
  lemma UpsertedTwice<T(!new)>(existing: seq<T>, key: T -> string, editId: string, rec: T)
    requires editId != ""
    ensures Upserted(Upserted(existing, key, editId, rec), key, editId, rec)
            == Upserted(existing, key, editId, rec)
  {
  }
}
