/** The statements and positional parameters that db.js hands to the
    database driver. Executing them is the database's business; each
    operation here is the `(sql, params)` pair its call to `query` receives. */
module Db {
  import opened Wrappers
  import opened Js
  import opened Text

  /** One call `query(sql, params)`; `$k` in `sql` stands for `params[k - 1]`. */
  datatype Query = Query(sql: string, params: seq<JsValue>)

  /** The columns of `documents` that an insert fills, in the order of the
      column list of the INSERT statement. */
  const DocumentColumns: seq<string> := [
    "numero_fattura", "data_fattura", "importo", "valuta", "azienda",
    "tipo_pagamento", "banca", "tipo_documento", "stato", "metodo_pagamento",
    "data_creazione", "utente_id"
  ]

  /** The placeholder `$k`. */
  function Placeholder(k: nat): string
  {
    "$" + NatToString(k)
  }

  /** The placeholders `$1 .. $n`. */
  function Placeholders(n: nat): (ps: seq<string>)
    ensures |ps| == n
  {
    seq(n, i requires 0 <= i < n => Placeholder(i + 1))
  }

  /** Twelve items laid out five, five and two to a line. */
  function Rows12(items: seq<string>): string
    requires |items| == 12
  {
    "      " + Join(items[..5], ", ") + ",\n"
    + "      " + Join(items[5..10], ", ") + ",\n"
    + "      " + Join(items[10..], ", ") + "\n"
  }

  /** An INSERT into `documents` of the given twelve columns and values. */
  function InsertTemplate(columns: seq<string>, values: seq<string>): string
    requires |columns| == 12 && |values| == 12
  {
    "\n    INSERT INTO documents (\n" + Rows12(columns)
    + "    ) VALUES (\n" + Rows12(values) + "    )\n  "
  }

  /** The INSERT statement shared by `addSpesa` and `saveDocumento`: the
      column at position `i` of its column list is `DocumentColumns[i]` and
      receives the placeholder `$(i + 1)`; the layout is that of the
      template literal in db.js (five, five and two items to a line). */
  const InsertSql: string := InsertTemplate(DocumentColumns, Placeholders(12))

  // ---------------------------------------------------------------------
  // addSpesa

  /** The values of the twelve insert columns read from a record, as the
      destructuring `const { numero_fattura, ... } = spesa` reads them. */
  function ColumnValues(record: seq<(string, JsValue)>): (vs: seq<JsValue>)
    ensures |vs| == |DocumentColumns|
    ensures forall i :: 0 <= i < |vs| ==> vs[i] == Get(record, DocumentColumns[i])
  {
    seq(|DocumentColumns|, i requires 0 <= i < |DocumentColumns| => Get(record, DocumentColumns[i]))
  }

  /** `addSpesa(spesa)`: the INSERT with the record's twelve column values,
      in column order, as `$1 .. $12`; a column the record lacks is bound to
      `undefined`. */
  function AddSpesa(spesa: seq<(string, JsValue)>): (q: Query)
    ensures q.sql == InsertSql
    ensures |q.params| == |DocumentColumns| == 12
    ensures forall i :: 0 <= i < 12 ==> q.params[i] == Get(spesa, DocumentColumns[i])
  {
    Query(InsertSql, ColumnValues(spesa))
  }

  // ---------------------------------------------------------------------
  // deleteSpesa

  /** The condition `WHERE numero_fattura = $` that update and delete end with. */
  const WhereNumeroFattura: string := " WHERE numero_fattura = $"

  const DeleteFromDocuments: string := "DELETE FROM documents"

  /** `deleteSpesa(id)`: one parameter, the invoice number, matched by the
      placeholder `$1`. */
  function DeleteSpesa(id: JsValue): (q: Query)
    ensures q.params == [id]
    ensures DeleteFromDocuments <= q.sql
    ensures ParseWhere(q.sql[|DeleteFromDocuments|..]) == Some(|q.params|)
  {
    var sql := DeleteFromDocuments + WhereNumeroFattura + NatToString(1);
    assert sql[|DeleteFromDocuments|..] == WhereNumeroFattura + NatToString(1);
    ParseWhereRendered(1);
    Query(sql, [id])
  }

  // ---------------------------------------------------------------------
  // updateSpesa

  /** `${f} = $${k}`. */
  function Assignment(column: string, k: nat): string
  {
    column + " = $" + NatToString(k)
  }

  /** The assignments of `fields.map((f, i) => ...)`, numbered from `from`. */
  function Assignments(columns: seq<string>, from: nat): (r: seq<string>)
    ensures |r| == |columns|
    ensures forall i :: 0 <= i < |columns| ==> r[i] == Assignment(columns[i], from + i)
  {
    seq(|columns|, i requires 0 <= i < |columns| => Assignment(columns[i], from + i))
  }

  /** `updateSpesa(id, nuovaSpesa)`: the record's values in key order,
      then `id`; the statement sets each key to the placeholder of its value
      and matches the invoice number against the last placeholder. */
  function UpdateSpesa(id: JsValue, nuovaSpesa: seq<(string, JsValue)>): (q: Query)
    ensures |q.params| == |nuovaSpesa| + 1
    ensures forall i :: 0 <= i < |nuovaSpesa| ==> q.params[i] == nuovaSpesa[i].1
    ensures q.params[|nuovaSpesa|] == id
  {
    var fields := Keys(nuovaSpesa);
    var values := Values(nuovaSpesa);
    var setString := Join(Assignments(fields, 1), ", ");
    Query(UpdateDocumentsSet + (setString + (WhereNumeroFattura + NatToString(|fields| + 1))),
          values + [id])
  }

  // ---------------------------------------------------------------------
  // saveDocumento

  /** `data_fattura.trim()` on a truthy value that is not a string throws. */
  datatype SaveError = TrimIsNotAFunction

  /** `data_fattura && data_fattura.trim() !== '' ? data_fattura : today`. */
  function SafeDataFattura(dataFattura: JsValue, today: string): (r: Result<JsValue, SaveError>)
    ensures r.Failure? <==> Truthy(dataFattura) && !dataFattura.Str?
    ensures r.Success? && dataFattura.Str? && Trim(dataFattura.s) != "" ==> r.value == dataFattura
    ensures r.Success? && !(dataFattura.Str? && Trim(dataFattura.s) != "") ==> r.value == Str(today)
  {
    if !Truthy(dataFattura) then Success(Str(today))
    else if !dataFattura.Str? then Failure(TrimIsNotAFunction)
    else if Trim(dataFattura.s) != "" then Success(dataFattura)
    else Success(Str(today))
  }

  /** `saveDocumento(doc)`: the same INSERT as `addSpesa`, with a blank or
      missing invoice date replaced by `today` (the `YYYY-MM-DD` of the
      clock, an input here). */
  function SaveDocumento(doc: seq<(string, JsValue)>, today: string): (r: Result<Query, SaveError>)
    ensures var dataFattura := Get(doc, "data_fattura");
      r.Failure? <==> Truthy(dataFattura) && !dataFattura.Str?
    ensures r.Success? ==>
      && r.value.sql == InsertSql
      && |r.value.params| == 12
      && (forall i :: 0 <= i < 12 && i != 1 ==> r.value.params[i] == Get(doc, DocumentColumns[i]))
  {
    match SafeDataFattura(Get(doc, "data_fattura"), today)
    case Failure(e) => Failure(e)
    case Success(d) =>
      DateReplaced(doc, d);
      Success(Query(InsertSql, ColumnValues(doc)[1 := d]))
  }

  /** Replacing the date leaves the other eleven column values as read. */
  lemma DateReplaced(doc: seq<(string, JsValue)>, d: JsValue)
    ensures var ps := ColumnValues(doc)[1 := d];
      |ps| == 12 && forall i :: 0 <= i < 12 && i != 1 ==> ps[i] == Get(doc, DocumentColumns[i])
  {
  }

  /** With a non-blank string date, `saveDocumento` issues exactly what
      `addSpesa` issues; otherwise it differs only in the date, which is
      `today`. */
  lemma SaveDocumentoIsAddSpesaWithFallback(doc: seq<(string, JsValue)>, today: string)
    ensures var dataFattura := Get(doc, "data_fattura");
      && (dataFattura.Str? && Trim(dataFattura.s) != "" ==> SaveDocumento(doc, today) == Success(AddSpesa(doc)))
      && (!Truthy(dataFattura) || (dataFattura.Str? && Trim(dataFattura.s) == "") ==>
            SaveDocumento(doc, today) == Success(Query(InsertSql, AddSpesa(doc).params[1 := Str(today)])))
  {
    var dataFattura := Get(doc, "data_fattura");
    if dataFattura.Str? && Trim(dataFattura.s) != "" {
      KeepsDate(doc, dataFattura);
    }
  }

  lemma KeepsDate(doc: seq<(string, JsValue)>, dataFattura: JsValue)
    requires dataFattura == Get(doc, "data_fattura")
    ensures ColumnValues(doc)[1 := dataFattura] == ColumnValues(doc)
  {
    var vs := ColumnValues(doc);
    assert DocumentColumns[1] == "data_fattura";
    assert vs[1] == dataFattura;
  }

  // ---------------------------------------------------------------------
  // reading an UPDATE statement back

  predicate IsIdentifierChar(c: char) {
    ('a' <= c <= 'z') || ('A' <= c <= 'Z') || IsDigit(c) || c == '_'
  }

  /** A plain SQL column name: letters, digits and underscores, not
      starting with a digit. */
  predicate IsIdentifier(k: string) {
    |k| > 0 && !IsDigit(k[0]) && forall i :: 0 <= i < |k| ==> IsIdentifierChar(k[i])
  }

  /** The number of leading identifier characters of `s`. */
  function IdentifierLength(s: string): (n: nat)
    ensures n <= |s|
  {
    if s == [] || !IsIdentifierChar(s[0]) then 0 else 1 + IdentifierLength(s[1..])
  }

  /** `" WHERE numero_fattura = $k"` up to the end: the number `k`. */
  function ParseWhere(s: string): Option<nat>
  {
    if WhereNumeroFattura <= s && |s| > |WhereNumeroFattura|
       && AllDigits(s[|WhereNumeroFattura|..])
    then Some(DigitsValue(s[|WhereNumeroFattura|..]))
    else None
  }

  /** One or more assignments `col = $k` separated by `", "`, then the
      WHERE condition: each column with its placeholder number, and the
      number of the WHERE placeholder. As in SQL, the list cannot be empty
      and a column name cannot start with a digit. */
  function ParseSetList(s: string): Option<(seq<(string, nat)>, nat)>
    decreases |s|, 1
  {
    var n := IdentifierLength(s);
    var s1 := s[n..];
    if n == 0 || IsDigit(s[0]) || !(" = $" <= s1) then None
    else
      var s2 := s1[4..];
      var d := LeadingDigits(s2);
      if d == 0 then None
      else ParseAfterItem((s[..n], DigitsValue(s2[..d])), s2[d..])
  }

  /** What follows one assignment: `", "` and more assignments, or the
      WHERE condition. */
  function ParseAfterItem(item: (string, nat), s: string): Option<(seq<(string, nat)>, nat)>
    decreases |s|, 0
  {
    if ", " <= s then
      match ParseSetList(s[2..])
      case Some((items, w)) => Some(([item] + items, w))
      case None => None
    else
      match ParseWhere(s)
      case Some(w) => Some(([item], w))
      case None => None
  }

  const UpdateDocumentsSet: string := "UPDATE documents SET "

  /** What an `UPDATE documents SET ... WHERE numero_fattura = $w` statement
      assigns: each column with the number of its placeholder, and `w`. */
  function ParseUpdate(sql: string): Option<(seq<(string, nat)>, nat)>
  {
    if UpdateDocumentsSet <= sql then ParseSetList(sql[|UpdateDocumentsSet|..]) else None
  }

  /** The statement of `updateSpesa` assigns the `i`-th key the placeholder
      of the `i`-th value and matches the invoice number against the one of
      `id`: every placeholder is in range and binds the intended value.
      This needs the keys to be plain column names; the code splices keys
      into the statement as they are. */
  lemma UpdateSpesaBindsEachColumn(id: JsValue, nuovaSpesa: seq<(string, JsValue)>)
    requires |nuovaSpesa| > 0
    requires forall i :: 0 <= i < |nuovaSpesa| ==> IsIdentifier(nuovaSpesa[i].0)
    ensures var q := UpdateSpesa(id, nuovaSpesa);
      && ParseUpdate(q.sql).Some?
      && BindsAsIntended(ParseUpdate(q.sql).value, q.params, id, nuovaSpesa)
  {
    var q := UpdateSpesa(id, nuovaSpesa);
    UpdateSpesaParses(id, nuovaSpesa);
    BindsFromNumbering(q.params, id, nuovaSpesa);
  }

  /** The assignments and WHERE placeholder read from an UPDATE set each key
      of `record` to a placeholder standing for that key's value in
      `params`, and select the row by a placeholder standing for `id`. */
  predicate BindsAsIntended(parsed: (seq<(string, nat)>, nat), params: seq<JsValue>,
                            id: JsValue, record: seq<(string, JsValue)>)
  {
    var (columns, w) := parsed;
    && |columns| == |record|
    && (forall i :: 0 <= i < |columns| ==>
          && columns[i].0 == record[i].0
          && 1 <= columns[i].1 <= |params|
          && params[columns[i].1 - 1] == record[i].1)
    && 1 <= w <= |params| && params[w - 1] == id
  }

  lemma BindsFromNumbering(params: seq<JsValue>, id: JsValue, record: seq<(string, JsValue)>)
    requires |params| == |record| + 1 && params[|record|] == id
    requires forall i :: 0 <= i < |record| ==> params[i] == record[i].1
    ensures BindsAsIntended((Numbered(Keys(record), 1), |record| + 1), params, id, record)
  {
  }

  /** Reading back the statement of `updateSpesa` gives each key with the
      number `i + 1` and the WHERE placeholder `n + 1`. */
  lemma UpdateSpesaParses(id: JsValue, nuovaSpesa: seq<(string, JsValue)>)
    requires |nuovaSpesa| > 0
    requires forall i :: 0 <= i < |nuovaSpesa| ==> IsIdentifier(nuovaSpesa[i].0)
    ensures ParseUpdate(UpdateSpesa(id, nuovaSpesa).sql)
      == Some((Numbered(Keys(nuovaSpesa), 1), |nuovaSpesa| + 1))
  {
    var fields := Keys(nuovaSpesa);
    UpdateSqlIsSetList(id, nuovaSpesa);
    assert forall i :: 0 <= i < |fields| ==> IsIdentifier(fields[i]) by {
      forall i | 0 <= i < |fields| ensures IsIdentifier(fields[i]) {
        assert fields[i] == nuovaSpesa[i].0;
      }
    }
    ParseRenderedSetList(fields, 1, |fields| + 1);
  }

  /** An empty record gives a statement with nothing between `SET` and
      `WHERE`, still with `id` as its one parameter; SQL rejects it, and so
      does the parser. */
  lemma EmptyUpdateIsRejected(id: JsValue)
    ensures UpdateSpesa(id, []).sql == UpdateDocumentsSet + WhereNumeroFattura + "1"
    ensures UpdateSpesa(id, []).params == [id]
    ensures ParseUpdate(UpdateSpesa(id, []).sql).None?
  {
    var sql := UpdateSpesa(id, []).sql;
    var tail := WhereNumeroFattura + NatToString(1);
    assert NatToString(1) == "1";
    assert Join(Assignments([], 1), ", ") == "";
    assert sql == UpdateDocumentsSet + tail;
    assert sql[|UpdateDocumentsSet|..] == tail;
    assert tail[0] == ' ';
  }

  /** The statement of `updateSpesa` is the fixed head, then the set list. */
  lemma UpdateSqlIsSetList(id: JsValue, nuovaSpesa: seq<(string, JsValue)>)
    ensures ParseUpdate(UpdateSpesa(id, nuovaSpesa).sql)
      == ParseSetList(SetListText(Keys(nuovaSpesa), 1, |nuovaSpesa| + 1))
  {
    var sql := UpdateSpesa(id, nuovaSpesa).sql;
    var tail := SetListText(Keys(nuovaSpesa), 1, |nuovaSpesa| + 1);
    assert sql == UpdateDocumentsSet + tail;
    assert sql[|UpdateDocumentsSet|..] == tail;
  }

  lemma ParseWhereRendered(w: nat)
    ensures ParseWhere(WhereNumeroFattura + NatToString(w)) == Some(w)
  {
    var s := WhereNumeroFattura + NatToString(w);
    assert s[|WhereNumeroFattura|..] == NatToString(w);
    NatToStringRoundTrip(w);
  }

  /** One rendered assignment is read as its column and number, and parsing
      goes on with what follows it. */
  lemma {:induction false} ParseOneAssignment(k: string, j: nat, rest: string)
    requires IsIdentifier(k)
    requires rest == [] || !IsDigit(rest[0])
    ensures ParseSetList(Assignment(k, j) + rest) == ParseAfterItem((k, j), rest)
  {
    var s := Assignment(k, j) + rest;
    AssignmentHead(k, j, rest);
    AssignmentNumber(k, j, rest);
    UnfoldParseSetList(s, |k|, |NatToString(j)|, k, j, rest);
  }

  /** A rendered assignment starts with its column and ` = $`. */
  lemma AssignmentHead(k: string, j: nat, rest: string)
    requires IsIdentifier(k)
    ensures var s := Assignment(k, j) + rest;
      && !IsDigit(s[0])
      && IdentifierLength(s) == |k| > 0 && s[..|k|] == k && " = $" <= s[|k|..]
  {
    var tail := " = $" + NatToString(j) + rest;
    var s := Assignment(k, j) + rest;
    assert s == k + tail;
    assert s[0] == k[0];
    assert IdentifierLength(s) == |k| by {
      IdentifierLengthOf(k, tail);
    }
    assert s[|k|..] == tail;
  }

  /** After ` = $` comes the number of the placeholder, then `rest`. */
  lemma AssignmentNumber(k: string, j: nat, rest: string)
    requires rest == [] || !IsDigit(rest[0])
    ensures var s := Assignment(k, j) + rest;
      var d := |NatToString(j)|;
      && |s| >= |k| + 4
      && LeadingDigits(s[|k|..][4..]) == d
      && DigitsValue(s[|k|..][4..][..d]) == j && s[|k|..][4..][d..] == rest
  {
    var digits := NatToString(j);
    var s := Assignment(k, j) + rest;
    var d := |digits|;
    assert s[|k|..][4..] == digits + rest by {
      assert s == k + " = $" + digits + rest;
      assert s[|k|..] == " = $" + digits + rest;
    }
    assert LeadingDigits(digits + rest) == d by {
      LeadingDigitsOf(digits, rest);
    }
    assert (digits + rest)[..d] == digits;
    assert (digits + rest)[d..] == rest;
    NatToStringRoundTrip(j);
  }

  /** One step of `ParseSetList` on an assignment. */
  lemma UnfoldParseSetList(s: string, n: nat, d: nat, k: string, j: nat, rest: string)
    requires IdentifierLength(s) == n > 0 && !IsDigit(s[0]) && s[..n] == k && " = $" <= s[n..]
    requires LeadingDigits(s[n..][4..]) == d > 0
    requires DigitsValue(s[n..][4..][..d]) == j && s[n..][4..][d..] == rest
    ensures ParseSetList(s) == ParseAfterItem((k, j), rest)
  {
  }

  /** Each column paired with its placeholder number, counting from `from`. */
  function Numbered(columns: seq<string>, from: nat): (r: seq<(string, nat)>)
    ensures |r| == |columns|
    ensures forall i :: 0 <= i < |columns| ==> r[i] == (columns[i], from + i)
  {
    seq(|columns|, i requires 0 <= i < |columns| => (columns[i], from + i))
  }

  /** The statement tail that `updateSpesa` builds: the joined
      assignments numbered from `from`, then the WHERE condition on `$w`. */
  function SetListText(columns: seq<string>, from: nat, w: nat): string
  {
    Join(Assignments(columns, from), ", ") + (WhereNumeroFattura + NatToString(w))
  }

  /** Parsing the joined assignments followed by the WHERE condition gives
      back each column with its number. */
  lemma {:induction false} ParseRenderedSetList(columns: seq<string>, from: nat, w: nat)
    requires |columns| > 0
    requires forall i :: 0 <= i < |columns| ==> IsIdentifier(columns[i])
    ensures ParseSetList(SetListText(columns, from, w)) == Some((Numbered(columns, from), w))
    decreases |columns|
  {
    if |columns| == 1 {
      ParseRenderedSingle(columns, from, w);
    } else {
      ParseRenderedSetList(columns[1..], from + 1, w);
      ParseRenderedCons(columns, from, w);
    }
  }

  lemma {:induction false} ParseRenderedSingle(columns: seq<string>, from: nat, w: nat)
    requires |columns| == 1 && IsIdentifier(columns[0])
    ensures ParseSetList(SetListText(columns, from, w)) == Some((Numbered(columns, from), w))
  {
    var whereTail := WhereNumeroFattura + NatToString(w);
    assert SetListText(columns, from, w) == Assignment(columns[0], from) + whereTail;
    ParseOneAssignment(columns[0], from, whereTail);
    AfterLastItem((columns[0], from), w);
    assert Numbered(columns, from) == [(columns[0], from)];
  }

  lemma {:induction false} ParseRenderedCons(columns: seq<string>, from: nat, w: nat)
    requires |columns| > 1
    requires forall i :: 0 <= i < |columns| ==> IsIdentifier(columns[i])
    requires ParseSetList(SetListText(columns[1..], from + 1, w)) == Some((Numbered(columns[1..], from + 1), w))
    ensures ParseSetList(SetListText(columns, from, w)) == Some((Numbered(columns, from), w))
  {
    var more := SetListText(columns[1..], from + 1, w);
    SetListTextCons(columns, from, w);
    ParseOneAssignment(columns[0], from, ", " + more);
    AfterItemComma((columns[0], from), more);
    NumberedCons(columns, from);
  }

  lemma {:induction false} SetListTextCons(columns: seq<string>, from: nat, w: nat)
    requires |columns| > 1
    ensures SetListText(columns, from, w)
      == Assignment(columns[0], from) + (", " + SetListText(columns[1..], from + 1, w))
  {
    assert Assignments(columns, from)[1..] == Assignments(columns[1..], from + 1);
  }

  lemma {:induction false} NumberedCons(columns: seq<string>, from: nat)
    requires |columns| > 0
    ensures Numbered(columns, from) == [(columns[0], from)] + Numbered(columns[1..], from + 1)
  {
  }

  lemma AfterItemComma(item: (string, nat), more: string)
    ensures ParseAfterItem(item, ", " + more) ==
      match ParseSetList(more)
      case Some((items, w)) => Some(([item] + items, w))
      case None => None
  {
    assert (", " + more)[2..] == more;
  }

  lemma AfterLastItem(item: (string, nat), w: nat)
    ensures ParseAfterItem(item, WhereNumeroFattura + NatToString(w)) == Some(([item], w))
  {
    var t := WhereNumeroFattura + NatToString(w);
    assert t[0] == ' ';
    ParseWhereRendered(w);
  }

  lemma {:induction false} IdentifierLengthOf(k: string, rest: string)
    requires forall i :: 0 <= i < |k| ==> IsIdentifierChar(k[i])
    requires rest == [] || !IsIdentifierChar(rest[0])
    ensures IdentifierLength(k + rest) == |k|
  {
    if k != [] {
      assert (k + rest)[1..] == k[1..] + rest;
      IdentifierLengthOf(k[1..], rest);
    } else {
      assert k + rest == rest;
    }
  }

  lemma {:induction false} LeadingDigitsOf(digits: string, rest: string)
    requires AllDigits(digits)
    requires rest == [] || !IsDigit(rest[0])
    ensures LeadingDigits(digits + rest) == |digits|
  {
    if digits != [] {
      assert (digits + rest)[1..] == digits[1..] + rest;
      LeadingDigitsOf(digits[1..], rest);
    } else {
      assert digits + rest == rest;
    }
  }
}
