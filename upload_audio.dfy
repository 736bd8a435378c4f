/** The audio upload handler of api/upload-audio.js: after the method check
    and the upload, it turns a transcript of the form
    "date, product, place, amount" into a spending record and stores it with
    `addSpesa`. The transcript is a parameter here (the handler uses a fixed
    simulated one), and so is today's date. */
module UploadAudio {
  import opened Wrappers
  import opened Js
  import opened Text
  import opened ParseFloat
  import Db

  // ---------------------------------------------------------------------
  // the amount

  predicate IsNumeric(c: char) {
    IsDigit(c) || c == '.'
  }

  /** `s.replace(/[^\d.]/g, '')`: the digits and dots of `s`, in order. */
  function StripNonNumeric(s: string): (r: string)
    ensures |r| <= |s|
    ensures forall i :: 0 <= i < |r| ==> IsNumeric(r[i])
  {
    if s == [] then []
    else Kept(s[0]) + StripNonNumeric(s[1..])
  }

  /** The stripped string holds exactly the digits and dots of the input. */
  lemma {:induction false} StripKeepsExactlyNumeric(s: string, c: char)
    ensures c in StripNonNumeric(s) <==> c in s && IsNumeric(c)
  {
    if s != [] {
      StripKeepsExactlyNumeric(s[1..], c);
      assert s == [s[0]] + s[1..];
    }
  }

  /** What stripping keeps of one character. */
  function Kept(c: char): string {
    if IsNumeric(c) then [c] else []
  }

  /** Stripping works piece by piece, so the order of what is kept is the
      order of the input. */
  lemma {:induction false} StripConcat(a: string, b: string)
    ensures StripNonNumeric(a + b) == StripNonNumeric(a) + StripNonNumeric(b)
  {
    if a == [] {
      assert a + b == b;
    } else {
      var c := a[0];
      assert (a + b)[0] == c;
      assert (a + b)[1..] == a[1..] + b;
      calc {
        StripNonNumeric(a + b);
        Kept(c) + StripNonNumeric(a[1..] + b);
        { StripConcat(a[1..], b); }
        Kept(c) + (StripNonNumeric(a[1..]) + StripNonNumeric(b));
        (Kept(c) + StripNonNumeric(a[1..])) + StripNonNumeric(b);
        StripNonNumeric(a) + StripNonNumeric(b);
      }
    }
  }

  /** A string without digits or dots strips to nothing. */
  lemma {:induction false} StripNothingNumeric(s: string)
    requires forall i :: 0 <= i < |s| ==> !IsNumeric(s[i])
    ensures StripNonNumeric(s) == []
  {
    if s != [] {
      StripNothingNumeric(s[1..]);
    }
  }

  /** A string of digits and dots is left as it is; in particular stripping
      twice is stripping once. */
  lemma {:induction false} StripNumericUnchanged(s: string)
    requires forall i :: 0 <= i < |s| ==> IsNumeric(s[i])
    ensures StripNonNumeric(s) == s
  {
    if s != [] {
      StripNumericUnchanged(s[1..]);
    }
  }

  lemma StripIdempotent(s: string)
    ensures StripNonNumeric(StripNonNumeric(s)) == StripNonNumeric(s)
  {
    StripNumericUnchanged(StripNonNumeric(s));
  }

  /** `parseFloat(raw?.replace(/[^\d.]/g, '')) || 0`: a missing piece gives
      `parseFloat(undefined)`, which is NaN, hence 0. */
  function Amount(raw: Option<string>): (v: real)
    ensures v >= 0.0
    ensures raw.None? ==> v == 0.0
    ensures raw.Some? ==>
      var p := Parse(StripNonNumeric(raw.value));
      && (v == 0.0 <==> p.None? || p.value.0.mantissa == 0)
      && (p.Some? ==> v == Value(p.value.0))
  {
    match raw
    case None => 0.0
    case Some(t) => NumberOrZero(StripNonNumeric(t))
  }

  // ---------------------------------------------------------------------
  // the record

  /** The `spesa` object the handler builds. */
  datatype Spesa = Spesa(data: string, prodotto: string, luogo: string, importo: real,
                         quantita: JsValue, unitaMisura: JsValue, audioUrl: string)

  /** The `i`-th element of an array destructuring: `undefined` past the
      end. */
  function Piece(ps: seq<string>, i: nat): (r: Option<string>)
    ensures r.Some? <==> i < |ps|
    ensures r.Some? ==> r.value == ps[i]
  {
    if i < |ps| then Some(ps[i]) else None
  }

  /** `p?.trim() || fallback`. */
  function TrimmedOr(p: Option<string>, fallback: string): (r: string)
    ensures p.Some? && Trim(p.value) != "" ==> r == Trim(p.value)
    ensures p.None? || Trim(p.value) == "" ==> r == fallback
  {
    if p.Some? && Trim(p.value) != "" then Trim(p.value) else fallback
  }

  /** Lines 29-43: split the transcript on commas, take the first four pieces
      as date, product, place and amount, trim the first three, fall back to
      today, `'Prodotto'` and `'Luogo'`, and read the amount. */
  function BuildSpesa(text: string, today: string): (s: Spesa)
    ensures s.importo >= 0.0
    ensures s.quantita == Null && s.unitaMisura == Null && s.audioUrl == ""
    ensures s.prodotto != "" && s.luogo != ""
    ensures today != "" ==> s.data != ""
    ensures ',' !in s.prodotto && ',' !in s.luogo
    ensures ',' !in today ==> ',' !in s.data
  {
    var ps := Split(text, ',');
    var data := TrimmedOr(Piece(ps, 0), today);
    var prodotto := TrimmedOr(Piece(ps, 1), "Prodotto");
    var luogo := TrimmedOr(Piece(ps, 2), "Luogo");
    PiecesHaveNoComma(ps, today);
    Spesa(data, prodotto, luogo, Amount(Piece(ps, 3)), Null, Null, "")
  }

  /** The first three fields built from comma-free pieces hold no comma and
      are not empty. */
  lemma PiecesHaveNoComma(ps: seq<string>, today: string)
    requires forall i :: 0 <= i < |ps| ==> ',' !in ps[i]
    ensures var data := TrimmedOr(Piece(ps, 0), today);
      (',' !in today ==> ',' !in data) && (today != "" ==> data != "")
    ensures var prodotto := TrimmedOr(Piece(ps, 1), "Prodotto");
      ',' !in prodotto && prodotto != ""
    ensures var luogo := TrimmedOr(Piece(ps, 2), "Luogo");
      ',' !in luogo && luogo != ""
  {
    TrimmedHasNoComma(Piece(ps, 0), today);
    TrimmedHasNoComma(Piece(ps, 1), "Prodotto");
    TrimmedHasNoComma(Piece(ps, 2), "Luogo");
  }

  /** A trimmed piece of a comma split holds no comma. */
  lemma TrimmedHasNoComma(p: Option<string>, fallback: string)
    requires p.Some? ==> ',' !in p.value
    ensures ',' !in fallback ==> ',' !in TrimmedOr(p, fallback)
    ensures fallback != "" ==> TrimmedOr(p, fallback) != ""
  {
    if p.Some? {
      TrimKeepsAbsent(p.value, ',');
    }
  }

  /** A transcript of any number of comma-free pieces: each of the first
      three fields is its trimmed piece, or its default when the piece is
      blank or missing, and the amount is read from the fourth piece, or is
      0 when there are fewer than four. */
  lemma PiecesToRecord(ps: seq<string>, today: string)
    requires |ps| >= 1
    requires forall i :: 0 <= i < |ps| ==> ',' !in ps[i]
    ensures var s := BuildSpesa(Join(ps, ","), today);
      && s.data == (if Trim(ps[0]) != "" then Trim(ps[0]) else today)
      && s.prodotto == (if |ps| > 1 && Trim(ps[1]) != "" then Trim(ps[1]) else "Prodotto")
      && s.luogo == (if |ps| > 2 && Trim(ps[2]) != "" then Trim(ps[2]) else "Luogo")
      && s.importo == (if |ps| > 3 then NumberOrZero(StripNonNumeric(ps[3])) else 0.0)
      && s.quantita == Null && s.unitaMisura == Null && s.audioUrl == ""
  {
    SplitJoin(ps, ',');
  }

  /** A transcript of four or more comma-free pieces gives the trimmed first
      three (or their defaults when blank) and the amount of the fourth;
      pieces after the fourth are ignored. The date is kept as text. */
  lemma FourPieces(d: string, p: string, l: string, a: string, extra: seq<string>, today: string)
    requires ',' !in d && ',' !in p && ',' !in l && ',' !in a
    requires forall i :: 0 <= i < |extra| ==> ',' !in extra[i]
    ensures BuildSpesa(Join([d, p, l, a] + extra, ","), today)
         == Spesa(if Trim(d) != "" then Trim(d) else today,
                  if Trim(p) != "" then Trim(p) else "Prodotto",
                  if Trim(l) != "" then Trim(l) else "Luogo",
                  NumberOrZero(StripNonNumeric(a)), Null, Null, "")
  {
    var ps := [d, p, l, a] + extra;
    assert forall i :: 0 <= i < |ps| ==> ',' !in ps[i] by {
      forall i | 0 <= i < |ps| ensures ',' !in ps[i] {
        if i >= 4 {
          assert ps[i] == extra[i - 4];
        }
      }
    }
    PiecesToRecord(ps, today);
  }

  /** A transcript without commas is all date: product, place and amount
      take their defaults. */
  lemma NoCommaDefaults(text: string, today: string)
    requires ',' !in text
    ensures BuildSpesa(text, today)
         == Spesa(if Trim(text) != "" then Trim(text) else today, "Prodotto", "Luogo", 0.0, Null, Null, "")
  {
    SplitNoSeparator(text, ',');
  }

  /** The handler's own transcript. */
  const SimulatedTranscript: string := "12 giugno, pizza, Milano, 11 euro"

  /** The simulated transcript gives the record
      `{ data: "12 giugno", prodotto: "pizza", luogo: "Milano", importo: 11 }`. */
  lemma SimulatedTranscriptRecord(text: string, today: string)
    requires text == SimulatedTranscript
    ensures BuildSpesa(text, today) == Spesa("12 giugno", "pizza", "Milano", 11.0, Null, Null, "")
  {
    var d, p, l, a := "12 giugno", " pizza", " Milano", " 11 euro";
    assert text == Join([d, p, l, a] + [], ",") by {
      JoinFour(d, p, l, a);
      assert [d, p, l, a] + [] == [d, p, l, a];
    }
    FourPieces(d, p, l, a, [], today);
    TrimDate();
    TrimProduct();
    TrimPlace();
    SimulatedAmount();
  }

  lemma TrimDate()
    ensures Trim("12 giugno") == "12 giugno"
  {
    TrimPadded("12 giugno");
  }

  lemma TrimProduct()
    ensures Trim(" pizza") == "pizza"
  {
    var w := "pizza";
    assert " pizza" == [' '] + w;
    TrimPadded(w);
  }

  lemma TrimPlace()
    ensures Trim(" Milano") == "Milano"
  {
    var w := "Milano";
    assert " Milano" == [' '] + w;
    TrimPadded(w);
  }

  /** A word with no whitespace at its ends, with or without one leading
      space, trims to itself. */
  lemma TrimPadded(w: string)
    requires w != [] && !IsJsWhitespace(w[0]) && !IsJsWhitespace(w[|w| - 1])
    ensures Trim(w) == w && Trim([' '] + w) == w
  {
    TrimOfTrimmed(w);
    TrimSkipsLeading(' ', w);
  }

  lemma JoinFour(a: string, b: string, c: string, d: string)
    ensures Join([a, b, c, d], ",") == a + "," + b + "," + c + "," + d
  {
    var ps := [a, b, c, d];
    assert ps[1..] == [b, c, d] && ps[1..][1..] == [c, d] && ps[1..][1..][1..] == [d];
    assert Join([c, d], ",") == c + "," + d;
    assert Join([b, c, d], ",") == b + "," + (c + "," + d);
  }

  /** `parseFloat(" 11 euro".replace(/[^\d.]/g, '')) || 0` is 11. */
  lemma SimulatedAmount()
    ensures NumberOrZero(StripNonNumeric(" 11 euro")) == 11.0
  {
    assert StripNonNumeric(" 11 euro") == "11" by {
      assert " 11 euro" == " " + "11" + " euro";
      StripConcat(" " + "11", " euro");
      StripConcat(" ", "11");
      StripNothingNumeric(" ");
      StripNumericUnchanged("11");
      StripNothingNumeric(" euro");
    }
    ParseEleven();
  }

  lemma ParseEleven()
    ensures NumberOrZero("11") == 11.0
  {
    assert "11"[1..] == "1" && "1"[1..] == "";
    assert LeadingDigits("11") == 2;
    assert "11"[..2] == "11";
    assert DigitsValue("11") == 11 by {
      assert "11"[..1] == "1";
    }
    assert Parse("11") == Some((Decimal(11, 0), 2));
  }

  // ---------------------------------------------------------------------
  // the handler

  /** The record as the JavaScript object literal of lines 35-43, in its key
      order. */
  function SpesaObject(s: Spesa): (o: seq<(string, JsValue)>)
    ensures Keys(o) == ["data", "prodotto", "luogo", "importo", "quantita", "unita_misura", "audio_url"]
  {
    [("data", Str(s.data)), ("prodotto", Str(s.prodotto)), ("luogo", Str(s.luogo)),
     ("importo", Num(s.importo)), ("quantita", s.quantita), ("unita_misura", s.unitaMisura),
     ("audio_url", Str(s.audioUrl))]
  }

  datatype Body = ErrorBody(error: string) | SpesaBody(spesa: Spesa)

  /** The one reply the handler sends, and the INSERT it issues, if any. */
  datatype Outcome = Outcome(status: nat, body: Body, insert: Option<Db.Query>)

  /** `handler(req, res)` for a request with method `httpMethod`, whose upload
      failed or not, whose transcript is `text`, on date `today`, and whose
      INSERT throws or not. */
  function Handler(httpMethod: string, uploadFailed: bool, text: string, today: string, saveFailed: bool): (o: Outcome)
    ensures o.status == 405 <==> httpMethod != "POST"
    ensures o.status == 405 ==> o.body == ErrorBody("Method Not Allowed") && o.insert.None?
    ensures httpMethod == "POST" && uploadFailed ==>
      o == Outcome(500, ErrorBody("Errore nel caricamento audio"), None)
    ensures httpMethod == "POST" && !uploadFailed ==>
      && o.insert == Some(Db.AddSpesa(SpesaObject(BuildSpesa(text, today))))
      && (o.status == 200 <==> !saveFailed)
      && (!saveFailed ==> o.body == SpesaBody(BuildSpesa(text, today)))
      && (saveFailed ==> o == Outcome(500, ErrorBody("Errore nel salvataggio della spesa"), o.insert))
  {
    if httpMethod != "POST" then Outcome(405, ErrorBody("Method Not Allowed"), None)
    else if uploadFailed then Outcome(500, ErrorBody("Errore nel caricamento audio"), None)
    else
      var spesa := BuildSpesa(text, today);
      var insert := Db.AddSpesa(SpesaObject(spesa));
      if saveFailed then Outcome(500, ErrorBody("Errore nel salvataggio della spesa"), Some(insert))
      else Outcome(200, SpesaBody(spesa), Some(insert))
  }

  /** The record's keys are not the column names `addSpesa` reads, except
      `importo`: the INSERT the handler issues binds `$3` to the amount and
      every other placeholder to `undefined`, so date, product and place are
      not stored. With the `insert` ensures of `Handler` this covers every
      INSERT the handler issues. */
  lemma StoredRecordBindsOnlyAmount(s: Spesa)
    ensures forall i :: 0 <= i < 12 ==>
      Db.AddSpesa(SpesaObject(s)).params[i] == if i == 2 then Num(s.importo) else Undefined
  {
    var o := SpesaObject(s);
    forall i | 0 <= i < 12
      ensures Get(o, Db.DocumentColumns[i]) == if i == 2 then Num(s.importo) else Undefined
    {
      if i == 2 {
        SpesaObjectAmount(s);
      } else {
        ColumnIsNotSpesaKey(i);
        SpesaObjectLacks(s, Db.DocumentColumns[i]);
      }
    }
  }

  /** The keys of the record, in order. */
  const SpesaKeys: seq<string> := ["data", "prodotto", "luogo", "importo", "quantita", "unita_misura", "audio_url"]

  lemma SpesaObjectAmount(s: Spesa)
    ensures Get(SpesaObject(s), "importo") == Num(s.importo)
  {
    var o := SpesaObject(s);
    forall j | 0 <= j < 3 ensures o[j].0 != "importo" {
      assert o[j].0 == Keys(o)[j] == SpesaKeys[j];
    }
    GetFirstOccurrence(o, 3, "importo");
  }

  lemma SpesaObjectLacks(s: Spesa, key: string)
    requires key !in SpesaKeys
    ensures Get(SpesaObject(s), key) == Undefined
  {
    var o := SpesaObject(s);
    forall j | 0 <= j < |o| ensures o[j].0 != key {
      assert o[j].0 == Keys(o)[j] == SpesaKeys[j];
    }
  }

  lemma ColumnIsNotSpesaKey(i: nat)
    requires i < 12 && i != 2
    ensures Db.DocumentColumns[i] !in SpesaKeys
  {
    var c := Db.DocumentColumns[i];
    forall j | 0 <= j < |SpesaKeys| ensures SpesaKeys[j] != c {
      // every column name but `importo` differs from every key in its
      // length or its first letter
      assert |SpesaKeys[j]| != |c| || SpesaKeys[j][0] != c[0];
    }
  }
}
