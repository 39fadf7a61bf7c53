/**
 * The client's error-to-text function (frontend/src/api/translateErrors.js):
 * it picks the message of a failed request, preferring a field error from a
 * Django REST framework response body, and shows a known English message in
 * Azerbaijani. Everything JavaScript treats as falsy (`null`, `undefined`,
 * `""`) is the empty string or an absent value here; a response `detail`
 * that is not a string is treated as absent.
 */
module TranslateErrors {
  import opened Common

  /** A value inside a response body: a string, an array, or anything else (number, null, object). */
  datatype JsVal = Str(s: string) | Arr(items: seq<JsVal>) | OtherVal

  /** A response body: plain text, or an object (or array) with its values in key order. */
  datatype Data = DataText(text: string) | DataObject(entries: seq<(string, JsVal)>)

  /**
   * The thrown value: a falsy value, a string, or an error object with an
   * optional response body and its own `detail` and `message` ("" when absent).
   */
  datatype Err = Falsy | Text(s: string) | ErrObj(data: Option<Data>, detail: string, message: string)

  const DefaultFallback := "Xəta baş verdi"

  /** The translation table, in the order it is written. */
  const Translations: seq<(string, string)> := [
    ("You do not have permission to perform this action.", "Sizin bu əməliyyatı yerinə yetirmək üçün icazəniz yoxdur."),
    ("Authentication credentials were not provided.", "Giriş məlumatları təmin edilməyib."),
    ("Not found.", "Tapılmadı."),
    ("Method not allowed.", "Bu metod icazə verilmir."),
    ("Invalid token.", "Yanlış token."),
    ("User is inactive.", "İstifadəçi aktiv deyil."),
    ("Unable to log in with provided credentials.", "Daxil edilən məlumatlarla giriş mümkün olmadı."),
    ("Account is disabled.", "Hesab deaktiv edilib."),
    ("Network Error", "Şəbəkə xətası baş verdi."),
    ("This field is required.", "Bu sahə məcburidir."),
    ("This field may not be blank.", "Bu sahə boş qala bilməz."),
    ("Enter a valid email address.", "Düzgün e-poçt ünvanı daxil edin."),
    ("The two password fields didn't match.", "Şifrələr uyğun gəlmir."),
    ("A user with that email already exists.", "Bu e-poçt ilə artıq hesab mövcuddur."),
    ("This password is too short. It must contain at least 8 characters.", "Şifrə çox qısadır. Ən azı 8 simvol olmalıdır."),
    ("This password is too common.", "Bu şifrə çox sadədir."),
    ("This password is too similar to the email address.", "Şifrə e-poçt ünvanına çox bənzəyir.")
  ]

  /** `translations[msg]`: the first entry whose English text is `msg`. */
  function Lookup(table: seq<(string, string)>, msg: string): (r: Option<string>)
    ensures r.None? <==> forall k :: 0 <= k < |table| ==> table[k].0 != msg
    ensures r.Some? ==> exists k :: 0 <= k < |table| && table[k] == (msg, r.value)
  {
    if |table| == 0 then None
    else if table[0].0 == msg then Some(table[0].1)
    else Lookup(table[1..], msg)
  }

  /** `translations[msg] || msg || fallback`. */
  function Finish(msg: string, fallback: string): (r: string)
    ensures Lookup(Translations, msg).Some? ==> r == Lookup(Translations, msg).value
    ensures Lookup(Translations, msg).None? && msg != "" ==> r == msg
    ensures Lookup(Translations, msg).None? && msg == "" ==> r == fallback
  {
    TranslationsNonEmpty();
    match Lookup(Translations, msg)
    case Some(t) => if t != "" then t else if msg != "" then msg else fallback
    case None => if msg != "" then msg else fallback
  }

  /** `response.data.detail` when it is a non-empty string. */
  function DataDetail(data: Option<Data>): (d: string)
    ensures d != "" ==> data.Some? && data.value.DataObject? &&
                        exists k :: 0 <= k < |data.value.entries| && data.value.entries[k] == ("detail", Str(d))
  {
    if data.None? || data.value.DataText? then "" else EntryDetail(data.value.entries)
  }

  function EntryDetail(entries: seq<(string, JsVal)>): (d: string)
    ensures d != "" ==> exists k :: 0 <= k < |entries| && entries[k] == ("detail", Str(d))
  {
    if |entries| == 0 then ""
    else if entries[0].0 == "detail" then (if entries[0].1.Str? then entries[0].1.s else "")
    else EntryDetail(entries[1..])
  }

  /** The message chosen by the if-chain: string error, then response detail, then detail, then message, then fallback. */
  function Message(error: Err, fallback: string): (msg: string)
    requires error != Falsy
    ensures error.Text? ==> msg == error.s
    ensures error.ErrObj? ==> msg == DataDetail(error.data) || msg == error.detail || msg == error.message || msg == fallback
    ensures error.ErrObj? && msg == "" ==> fallback == ""
    ensures error.ErrObj? && DataDetail(error.data) != "" ==> msg == DataDetail(error.data)
  {
    match error
    case Text(s) => s
    case ErrObj(data, detail, message) =>
      if DataDetail(data) != "" then DataDetail(data)
      else if detail != "" then detail
      else if message != "" then message
      else fallback
  }

  /** `Object.values(data).flat()`: the values with arrays opened one level. */
  function Flat(values: seq<JsVal>): (r: seq<JsVal>)
  {
    if |values| == 0 then []
    else (match values[0] case Arr(items) => items case _ => [values[0]]) + Flat(values[1..])
  }

  function Values(entries: seq<(string, JsVal)>): (r: seq<JsVal>)
    ensures |r| == |entries| && forall k :: 0 <= k < |entries| ==> r[k] == entries[k].1
  {
    seq(|entries|, k requires 0 <= k < |entries| => entries[k].1)
  }

  /** The first flattened value of an object body, when it is a string. */
  function FieldError(error: Err): (r: Option<string>)
    ensures r.Some? ==> error.ErrObj? && error.data.Some? && error.data.value.DataObject? &&
                        Str(r.value) in Flat(Values(error.data.value.entries))
  {
    if error.ErrObj? && error.data.Some? && error.data.value.DataObject? then
      var flat := Flat(Values(error.data.value.entries));
      if |flat| > 0 && flat[0].Str? then Some(flat[0].s) else None
    else None
  }

  /** `translateError`. */
  function TranslateError(error: Err, fallback: string): (r: string)
    ensures error == Falsy || error == Text("") ==> r == fallback
    ensures error.Text? && error.s != "" ==> r == Finish(error.s, fallback)
  {
    if error == Falsy || error == Text("") then fallback
    else if FieldError(error).Some? then
      var first := FieldError(error).value;
      match Lookup(Translations, first)
      case Some(t) => if t != "" then t else first
      case None => first
    else Finish(Message(error, fallback), fallback)
  }

  // ---------------------------------------------------------------------------
  // Properties

  /** No English text appears twice in the table, so each has one translation. */
  lemma TableKeysDistinct()
    ensures forall i, j :: 0 <= i < j < |Translations| ==> Translations[i].0 != Translations[j].0
  {
  }

  /** Every listed English message is shown as its Azerbaijani text. */
  lemma {:induction false} KnownMessagesTranslated(k: nat)
    requires k < |Translations|
    ensures TranslateError(Text(Translations[k].0), DefaultFallback) == Translations[k].1
  {
    TableKeysDistinct();
    TranslationsNonEmpty();
    var en, az := Translations[k].0, Translations[k].1;
    LookupListed(Translations, k);
    assert Lookup(Translations, en) == Some(az) && az != "";
    assert TranslateError(Text(en), DefaultFallback) == Finish(en, DefaultFallback);
  }

  lemma {:induction false} LookupListed(table: seq<(string, string)>, k: nat)
    requires k < |table|
    requires forall i, j :: 0 <= i < j < |table| ==> table[i].0 != table[j].0
    ensures Lookup(table, table[k].0) == Some(table[k].1)
  {
    if k > 0 {
      LookupListed(table[1..], k - 1);
    }
  }

  /** A string error the table does not know is shown unchanged. */
  lemma UnknownTextPassesThrough(s: string, fallback: string)
    requires s != "" && Lookup(Translations, s).None?
    ensures TranslateError(Text(s), fallback) == s
  {
  }

  /**
   * Without a string field error in the body, the message comes from the
   * first present source in the order: the response's detail, the error's
   * own detail, its message, the fallback.
   */
  lemma SourcePriority(data: Option<Data>, detail: string, message: string, fallback: string)
    requires FieldError(ErrObj(data, detail, message)).None?
    ensures var r := TranslateError(ErrObj(data, detail, message), fallback);
            (DataDetail(data) != "" ==> r == Finish(DataDetail(data), fallback)) &&
            (DataDetail(data) == "" && detail != "" ==> r == Finish(detail, fallback)) &&
            (DataDetail(data) == "" && detail == "" && message != "" ==> r == Finish(message, fallback)) &&
            (DataDetail(data) == "" && detail == "" && message == "" ==> r == Finish(fallback, fallback))
  {
  }

  /**
   * A string field error in the body wins over every other source: the
   * result does not depend on the error's detail, message or fallback.
   */
  lemma FieldErrorWins(data: Option<Data>, d1: string, m1: string, f1: string, d2: string, m2: string, f2: string)
    requires FieldError(ErrObj(data, d1, m1)).Some?
    ensures TranslateError(ErrObj(data, d1, m1), f1) == TranslateError(ErrObj(data, d2, m2), f2)
    ensures var first := FieldError(ErrObj(data, d1, m1)).value;
            TranslateError(ErrObj(data, d1, m1), f1) ==
            if Lookup(Translations, first).Some? then Lookup(Translations, first).value else first
  {
    TranslationsNonEmpty();
  }

  lemma TranslationsNonEmpty()
    ensures forall k :: 0 <= k < |Translations| ==> Translations[k].0 != "" && Translations[k].1 != ""
  {
  }

  /** Django REST framework's usual body `{field: ["message", ...]}` yields its first message. */
  lemma {:induction false} FirstFieldMessage(field: string, msg: string, rest: seq<JsVal>, more: seq<(string, JsVal)>)
    ensures FieldError(ErrObj(Some(DataObject([(field, Arr([Str(msg)] + rest))] + more)), "", "")) == Some(msg)
  {
    var entries := [(field, Arr([Str(msg)] + rest))] + more;
    var vs := Values(entries);
    assert vs[0] == Arr([Str(msg)] + rest);
    assert Flat(vs) == [Str(msg)] + rest + Flat(vs[1..]);
  }

  /** Empty arrays contribute nothing to the flattened values, so a later field's message is found. */
  lemma {:induction false} EmptyFieldSkipped(f1: string, f2: string, msg: string)
    ensures FieldError(ErrObj(Some(DataObject([(f1, Arr([])), (f2, Str(msg))])), "", "")) == Some(msg)
  {
    var vs := Values([(f1, Arr([])), (f2, Str(msg))]);
    assert vs == [Arr([]), Str(msg)];
    assert vs[1..] == [Str(msg)];
    assert Flat(vs[1..]) == [Str(msg)] + Flat([]);
    assert Flat(vs) == [] + Flat(vs[1..]);
  }

  /**
   * The user is never shown an empty text when the fallback is not empty,
   * unless the body's first field error is itself the empty string, which
   * is returned as it is.
   */
  lemma ResultNeverEmpty(error: Err, fallback: string)
    requires fallback != "" && FieldError(error) != Some("")
    ensures TranslateError(error, fallback) != ""
  {
    if error != Falsy && error != Text("") {
      if FieldError(error).Some? {
        TranslationsNonEmpty();
      } else {
        FinishNonEmpty(Message(error, fallback), fallback);
      }
    }
  }

  /** An empty string as the first field error is shown as the empty text, whatever the fallback. */
  lemma EmptyFieldErrorShownEmpty(field: string, fallback: string)
    ensures TranslateError(ErrObj(Some(DataObject([(field, Str(""))])), "", ""), fallback) == ""
  {
    var vs := Values([(field, Str(""))]);
    assert vs == [Str("")];
    assert Flat(vs) == [Str("")] + Flat([]);
    TranslationsNonEmpty();
  }

  lemma FinishNonEmpty(msg: string, fallback: string)
    requires fallback != ""
    ensures Finish(msg, fallback) != ""
  {
    TranslationsNonEmpty();
  }

  /** What is shown comes from the table, from the error itself, or is the fallback. */
  lemma ResultProvenance(error: Err, fallback: string)
    ensures var r := TranslateError(error, fallback);
            r == fallback ||
            (exists k :: 0 <= k < |Translations| && Translations[k].1 == r) ||
            (error.Text? && r == error.s) ||
            (error.ErrObj? && (r == error.detail || r == error.message || r == DataDetail(error.data) ||
                               FieldError(error) == Some(r)))
  {
    if error != Falsy && error != Text("") {
      var msg := if FieldError(error).Some? then FieldError(error).value else Message(error, fallback);
      var t := Lookup(Translations, msg);
      var r := TranslateError(error, fallback);
      if t.Some? {
        TranslationsNonEmpty();
        var k :| 0 <= k < |Translations| && Translations[k] == (msg, t.value);
        assert r == t.value;
        assert Translations[k].1 == r;
      } else if FieldError(error).Some? {
        assert r == msg;
      } else {
        assert r == msg || r == fallback;
        MessageProvenance(error, fallback);
      }
    }
  }

  /** The if-chain's message is the error's own text, one of its details or its message, or the fallback. */
  lemma MessageProvenance(error: Err, fallback: string)
    requires error != Falsy
    ensures var m := Message(error, fallback);
            m == fallback || (error.Text? && m == error.s) ||
            (error.ErrObj? && (m == error.detail || m == error.message || m == DataDetail(error.data)))
  {
  }
}
