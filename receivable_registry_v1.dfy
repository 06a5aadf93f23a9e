/**
 * The first receivable registry: a register-once, pipe-delimited receivable record
 * per id, `buyer|seller|amount|currency|due_date|registered|meta`, with both
 * numbers in decimal. The record builder is a pure function; `register` is a guarded
 * write of its result.
 */
module ReceivableRegistryV1 {
  import opened Common
  import Text

  const RegisteredField: string := "registered"

  /** A record read back into its fields. */
  datatype Receivable = Receivable(buyer: string, seller: string, amount: int, currency: string,
                                   dueDate: int, status: string, meta: string)

  /** The seven fields of the stored record, in order. */
  function RecordFields(buyer: string, seller: string, amount: int, currency: string, dueDate: int, meta: string)
    : (fields: seq<string>)
    ensures |fields| == 7 && fields[5] == RegisteredField
  {
    [buyer, seller, Text.IntToString(amount), currency, Text.IntToString(dueDate), RegisteredField, meta]
  }

  /** The stored record: the seven fields joined by '|'; never empty. */
  function Record(buyer: string, seller: string, amount: int, currency: string, dueDate: int, meta: string)
    : (s: string)
    ensures '|' in s
  {
    Text.Joined(RecordFields(buyer, seller, amount, currency, dueDate, meta), '|')
  }

  /**
   * Reads a record back: `split('|', 6)` into seven parts, both numbers parsed.
   * When `meta` holds no '|' either, this split is the full `split('|')`.
   */
  function ParseRecord(s: string): Option<Receivable>
  {
    var parts := Text.SplitN(s, '|', 6);
    if |parts| != 7 then None
    else
      match (Text.ParseInt(parts[2]), Text.ParseInt(parts[4]))
      case (Some(amount), Some(dueDate)) =>
        Some(Receivable(parts[0], parts[1], amount, parts[3], dueDate, parts[5], parts[6]))
      case _ => None
  }

  /**
   * A record whose buyer, seller and currency hold no '|' reads back as its inputs,
   * with "registered" as its sixth field.
   */
  lemma ParseRecordRoundTrip(buyer: string, seller: string, amount: int, currency: string, dueDate: int, meta: string)
    requires '|' !in buyer && '|' !in seller && '|' !in currency
    ensures ParseRecord(Record(buyer, seller, amount, currency, dueDate, meta))
         == Some(Receivable(buyer, seller, amount, currency, dueDate, RegisteredField, meta))
  {
    var fields := RecordFields(buyer, seller, amount, currency, dueDate, meta);
    Text.IntToStringHasNo(amount, '|');
    Text.IntToStringHasNo(dueDate, '|');
    assert forall i :: 0 <= i < |fields| - 1 ==> '|' !in fields[i];
    Text.SplitNJoined(fields, '|');
    Text.ParseIntToString(amount);
    Text.ParseIntToString(dueDate);
  }

  /** The buyer read back is the text before the first '|'. */
  lemma ParseRecordBuyer(s: string)
    requires '|' in s
    ensures ParseRecord(s).Some? ==> ParseRecord(s).value.buyer == Text.SplitOnce(s, '|').value.0
  {
    Text.SplitNFirst(s, '|', 6);
  }

  /**
   * A buyer holding '|' does not survive: the record reads back, if at all, with the
   * buyer cut at its first '|'.
   */
  lemma ParseRecordCutsBuyer(buyer: string, seller: string, amount: int, currency: string, dueDate: int, meta: string)
    requires '|' in buyer
    ensures ParseRecord(Record(buyer, seller, amount, currency, dueDate, meta)).Some? ==>
      ParseRecord(Record(buyer, seller, amount, currency, dueDate, meta)).value.buyer
        == Text.SplitOnce(buyer, '|').value.0 != buyer
  {
    var fields := RecordFields(buyer, seller, amount, currency, dueDate, meta);
    Text.JoinedCutsFirstField(fields, '|');
    ParseRecordBuyer(Record(buyer, seller, amount, currency, dueDate, meta));
  }

  class Registry {
    var records: map<Id, string>

    /** Every stored record is non-empty, so a stored id reads as registered. */
    ghost predicate Valid()
      reads this
    {
      forall id :: id in records ==> records[id] != ""
    }

    constructor ()
      ensures Valid()
      ensures records == map[]
    {
      records := map[];
    }

    /** `get_record`: empty bytes for an unknown id, the stored record otherwise. */
    function GetRecord(id: Id): (r: string)
      reads this
      requires Valid()
      ensures r == "" <==> id !in records
      ensures id in records ==> r == records[id]
    {
      Lookup(records, id)
    }

    /** `register`: once per id; stores the record. */
    method Register(id: Id, buyer: string, seller: string, amount: int, currency: string, dueDate: int, meta: string)
      returns (ok: bool)
      requires Valid()
      modifies this
      ensures Valid()
      ensures ok <==> id !in old(records)
      ensures records == if ok then old(records)[id := Record(buyer, seller, amount, currency, dueDate, meta)] else old(records)
      ensures ok ==> GetRecord(id) == Record(buyer, seller, amount, currency, dueDate, meta)
    {
      var existing := Lookup(records, id);
      if existing != "" {
        return false;
      }
      records := records[id := Record(buyer, seller, amount, currency, dueDate, meta)];
      return true;
    }
  }
}
