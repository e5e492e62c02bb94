/**
  The ingestion agent: turns the raw `Key: value` text into the product
  record. `_parse_raw_text` builds the key/value dictionary line by line;
  `run` maps the eight known keys onto record fields (splitting the three
  list fields on ", ") and validates the result. Reading the file is left
  to the caller: the agent is given the file's text.
 */
module DataIngestion {
  import opened Wrappers
  import opened Text
  import opened ProductModel

  /** `raw_text.strip().split('\n')`. */
  function Lines(raw: string): seq<string>
  {
    SplitOn(Strip(raw), "\n")
  }

  /** The key as stored: stripped, then every "• " and then every "* " removed. */
  function CleanKey(key: string): string
  {
    Replace(Replace(Strip(key), "• ", ""), "* ", "")
  }

  /** The entry one line contributes: nothing without a colon, else the cleaned key and stripped value around the first colon. */
  function ParseLine(line: string): (r: Option<(string, string)>)
  {
    if ':' in line then
      var parts := SplitAtFirst(line, ':');
      Some((CleanKey(parts.0), Strip(parts.1)))
    else None
  }

  /** The entries the given lines contribute, in order. */
  function Entries(lines: seq<string>): (r: seq<Option<(string, string)>>)
    ensures |r| == |lines| && forall i :: 0 <= i < |lines| ==> r[i] == ParseLine(lines[i])
  {
    seq(|lines|, i requires 0 <= i < |lines| => ParseLine(lines[i]))
  }

  /** The dictionary after storing the given entries one after another (a later entry overwrites an earlier one). */
  function Store(entries: seq<Option<(string, string)>>): map<string, string>
    decreases |entries|
  {
    if entries == [] then map[]
    else
      var data := Store(entries[..|entries| - 1]);
      match entries[|entries| - 1]
      case None => data
      case Some(entry) => data[entry.0 := entry.1]
  }

  /** The dictionary `_parse_raw_text` returns for the given text. */
  function ParseRaw(raw: string): map<string, string>
  {
    Store(Entries(Lines(raw)))
  }

  /** Storing one more entry: the dictionary so far, updated by that entry if it has one. */
  lemma StoreStep(entries: seq<Option<(string, string)>>, i: nat)
    requires i < |entries|
    ensures Store(entries[..i + 1]) ==
      match entries[i]
      case None => Store(entries[..i])
      case Some(e) => Store(entries[..i])[e.0 := e.1]
  {
    assert entries[..i + 1][..i] == entries[..i];
  }

  /** `_parse_raw_text`: one pass over the lines, storing each line's entry. */
  method ParseRawText(raw: string) returns (data: map<string, string>)
    ensures data == ParseRaw(raw)
  {
    var lines := SplitOn(Strip(raw), "\n");
    ghost var entries := Entries(lines);
    data := map[];
    for i := 0 to |lines|
      invariant data == Store(entries[..i])
    {
      var line := lines[i];
      StoreStep(entries, i);
      if ':' in line {
        var parts := SplitAtFirst(line, ':');
        var key := CleanKey(parts.0);
        var value := Strip(parts.1);
        assert entries[i] == Some((key, value));
        data := data[key := value];
      } else {
        assert entries[i] == None;
      }
    }
    assert entries[..|lines|] == entries;
  }

  /** Entry `e` stores something under `key`. */
  predicate StoresKey(e: Option<(string, string)>, key: string)
  {
    e.Some? && e.value.0 == key
  }

  /** A line is split at its first colon only: the value keeps every later colon. */
  lemma SplitsAtFirstColon(key: string, rest: string)
    requires ':' !in key
    ensures ParseLine(key + ":" + rest) == Some((CleanKey(key), Strip(rest)))
  {
    SplitAtFirstUnique(key, ':', rest);
  }

  /** A line without a colon contributes no entry. */
  lemma ColonlessLineHasNoEntry(line: string)
    requires ':' !in line
    ensures ParseLine(line) == None
  {
  }

  /** An entry-less line changes nothing, wherever it stands. */
  lemma {:induction false} NoEntryIgnored(before: seq<Option<(string, string)>>, after: seq<Option<(string, string)>>)
    ensures Store(before + [None] + after) == Store(before + after)
    decreases |after|
  {
    var all := before + [None] + after;
    if after == [] {
      assert all[..|all| - 1] == before;
      assert before + after == before;
    } else {
      var init := after[..|after| - 1];
      assert all[..|all| - 1] == before + [None] + init;
      assert (before + after)[..|before + after| - 1] == before + init;
      assert all[|all| - 1] == (before + after)[|before + after| - 1];
      NoEntryIgnored(before, init);
    }
  }

  /** A key is stored exactly when some entry stores it. */
  lemma {:induction false} StoredKeys(entries: seq<Option<(string, string)>>, key: string)
    ensures key in Store(entries) <==> exists j :: 0 <= j < |entries| && StoresKey(entries[j], key)
    decreases |entries|
  {
    if entries != [] {
      var init := entries[..|entries| - 1];
      StoredKeys(init, key);
      if exists j :: 0 <= j < |init| && StoresKey(init[j], key) {
        var j :| 0 <= j < |init| && StoresKey(init[j], key);
        assert entries[j] == init[j];
      }
      if exists j :: 0 <= j < |entries| && StoresKey(entries[j], key) {
        var j :| 0 <= j < |entries| && StoresKey(entries[j], key);
        if j < |init| {
          assert init[j] == entries[j];
        }
      }
    }
  }

  /** For a repeated key the last entry that stores it decides its value. */
  lemma {:induction false} LastOccurrenceWins(entries: seq<Option<(string, string)>>, i: nat, key: string, value: string)
    requires i < |entries| && entries[i] == Some((key, value))
    requires forall j :: i < j < |entries| ==> !StoresKey(entries[j], key)
    ensures key in Store(entries) && Store(entries)[key] == value
    decreases |entries|
  {
    if i < |entries| - 1 {
      var init := entries[..|entries| - 1];
      forall j | i < j < |init|
        ensures !StoresKey(init[j], key)
      {
        assert init[j] == entries[j];
      }
      LastOccurrenceWins(init, i, key, value);
      assert !StoresKey(entries[|entries| - 1], key);
    }
  }

  /** Blank lines (or any whitespace) before or after the text change nothing: the text is stripped first. */
  lemma BlankPaddingIgnored(front: string, raw: string, back: string)
    requires AllSpace(front) && AllSpace(back)
    ensures Lines(front + raw + back) == Lines(raw)
  {
    StripAbsorbsPadding(front, raw, back);
  }

  /** Whitespace around a key is dropped: the stored key is the bare key. */
  lemma SpacesIgnored(front: string, key: string, back: string)
    requires AllSpace(front) && AllSpace(back)
    requires key != [] && !IsSpace(key[0]) && !IsSpace(key[|key| - 1])
    requires '•' !in key && '*' !in key
    ensures CleanKey(front + key + back) == key
  {
    StripPadded(front, key, back);
    NoBulletsKept(key);
  }

  /** A leading "• " bullet is dropped from a key. */
  lemma DotBulletIgnored(front: string, key: string, back: string)
    requires AllSpace(front) && AllSpace(back)
    requires key != [] && !IsSpace(key[|key| - 1])
    requires '•' !in key && '*' !in key
    ensures CleanKey(front + "• " + key + back) == key
  {
    var dot := "• " + key;
    assert front + "• " + key + back == front + dot + back;
    StripPadded(front, dot, back);
    DotBulletDropped(key);
  }

  lemma DotBulletDropped(key: string)
    requires '•' !in key && '*' !in key
    ensures Replace(Replace("• " + key, "• ", ""), "* ", "") == key
  {
    ReplaceLeading("• ", key, "");
    NoBulletsKept(key);
    assert "" + Replace(key, "• ", "") == key;
  }

  /** A leading "* " bullet is dropped from a key. */
  lemma StarBulletIgnored(front: string, key: string, back: string)
    requires AllSpace(front) && AllSpace(back)
    requires key != [] && !IsSpace(key[|key| - 1])
    requires '•' !in key && '*' !in key
    ensures CleanKey(front + "* " + key + back) == key
  {
    var star := "* " + key;
    assert front + "* " + key + back == front + star + back;
    StripPadded(front, star, back);
    StarBulletDropped(key);
  }

  lemma StarBulletDropped(key: string)
    requires '•' !in key && '*' !in key
    ensures Replace(Replace("* " + key, "• ", ""), "* ", "") == key
  {
    var star := "* " + key;
    assert '•' !in star by {
      assert star[0] == '*' && star[1] == ' ' && star[2..] == key;
    }
    AbsentCharBlocks(star, "• ", 0);
    ReplaceAbsent(star, "• ", "");
    ReplaceLeading("* ", key, "");
    NoBulletsKept(key);
  }

  lemma NoBulletsKept(key: string)
    requires '•' !in key && '*' !in key
    ensures Replace(key, "• ", "") == key && Replace(key, "* ", "") == key
  {
    AbsentCharBlocks(key, "• ", 0);
    ReplaceAbsent(key, "• ", "");
    AbsentCharBlocks(key, "* ", 0);
    ReplaceAbsent(key, "* ", "");
  }

  /** The keys whose values are split into lists, and their fields. */
  const LIST_KEYS_MAP: map<string, Field> :=
    map["Skin Type" := SkinType, "Key Ingredients" := KeyIngredients, "Benefits" := Benefits]

  /** The field (and value) one raw key/value pair maps to in `run`; unknown keys map to nothing. */
  function MapEntry(rawKey: string, value: string): Option<(Field, FieldValue)>
  {
    if rawKey in LIST_KEYS_MAP then Some((LIST_KEYS_MAP[rawKey], Items(SplitOn(value, ", "))))
    else if rawKey == "Product Name" then Some((ProductName, Scalar(value)))
    else if rawKey == "Concentration" then Some((Concentration, Scalar(value)))
    else if rawKey == "How to Use" then Some((HowToUse, Scalar(value)))
    else if rawKey == "Side Effects" then Some((SideEffects, Scalar(value)))
    else if rawKey == "Price" then Some((Price, Scalar(value)))
    else None
  }

  /** The raw key each record field is read from. */
  function RawKey(f: Field): string
  {
    match f
    case ProductName => "Product Name"
    case Concentration => "Concentration"
    case SkinType => "Skin Type"
    case KeyIngredients => "Key Ingredients"
    case Benefits => "Benefits"
    case HowToUse => "How to Use"
    case SideEffects => "Side Effects"
    case Price => "Price"
  }

  /** Field `f` as read from raw value `value`. */
  function FieldValueOf(f: Field, value: string): FieldValue
  {
    if IsListField(f) then Items(SplitOn(value, ", ")) else Scalar(value)
  }

  /** The `final_data` dictionary `run` builds from the parsed dictionary. */
  function FinalData(data: map<string, string>): map<Field, FieldValue>
  {
    map f | f in FIELDS && RawKey(f) in data :: FieldValueOf(f, data[RawKey(f)])
  }

  /** Each raw key maps to a field exactly when it is that field's raw key, and with that field's value. */
  lemma MapEntryInvertsRawKey(rawKey: string, value: string)
    ensures MapEntry(rawKey, value).None? <==> forall f :: RawKey(f) != rawKey
    ensures forall f :: RawKey(f) == rawKey ==> MapEntry(rawKey, value) == Some((f, FieldValueOf(f, value)))
  {
    forall f | RawKey(f) == rawKey
      ensures MapEntry(rawKey, value) == Some((f, FieldValueOf(f, value)))
    {
      match f
      case ProductName =>
      case Concentration =>
      case SkinType =>
      case KeyIngredients =>
      case Benefits =>
      case HowToUse =>
      case SideEffects =>
      case Price =>
    }
    if MapEntry(rawKey, value).Some? {
      var f := MapEntry(rawKey, value).value.0;
      assert RawKey(f) == rawKey;
    }
  }

  /** Adding one raw pair to the parsed dictionary adds its field (if any) to `final_data`. */
  lemma FinalDataAdd(data: map<string, string>, rawKey: string, value: string)
    requires rawKey !in data
    ensures FinalData(data[rawKey := value]) ==
      match MapEntry(rawKey, value)
      case None => FinalData(data)
      case Some(e) => FinalData(data)[e.0 := e.1]
  {
    MapEntryInvertsRawKey(rawKey, value);
    FieldsListed();
  }

  /**
    One iteration of the loop in `run`: files a raw key/value pair under its
    field, if it has one, so that `final_data` stays the mapping of the pairs
    seen so far.
   */
  method AddEntry(finalData: map<Field, FieldValue>, rawKey: string, value: string, ghost seen: map<string, string>)
    returns (updated: map<Field, FieldValue>)
    requires rawKey !in seen && finalData == FinalData(seen)
    ensures updated == FinalData(seen[rawKey := value])
  {
    FinalDataAdd(seen, rawKey, value);
    updated := finalData;
    if rawKey in LIST_KEYS_MAP {
      updated := updated[LIST_KEYS_MAP[rawKey] := Items(SplitOn(value, ", "))];
    } else if rawKey == "Product Name" {
      updated := updated[ProductName := Scalar(value)];
    } else if rawKey == "Concentration" {
      updated := updated[Concentration := Scalar(value)];
    } else if rawKey == "How to Use" {
      updated := updated[HowToUse := Scalar(value)];
    } else if rawKey == "Side Effects" {
      updated := updated[SideEffects := Scalar(value)];
    } else if rawKey == "Price" {
      updated := updated[Price := Scalar(value)];
    }
  }

  /** Two maps with the same keys and the same value at each key are equal. */
  lemma SameEntries(m: map<string, string>, n: map<string, string>)
    requires forall k :: k in n ==> k in m
    requires forall k :: k in m ==> k in n && m[k] == n[k]
    ensures m == n
  {
  }

  /** The loop of `run` over the parsed dictionary's items, filling `final_data`. */
  method BuildFinalData(data: map<string, string>) returns (finalData: map<Field, FieldValue>)
    ensures finalData == FinalData(data)
  {
    finalData := map[];
    var todo := data.Keys;
    ghost var seen: map<string, string> := map[];
    while todo != {}
      invariant forall k :: k in todo ==> k in data && k !in seen
      invariant forall k :: k in data ==> k in todo || k in seen
      invariant forall k :: k in seen ==> k in data && seen[k] == data[k]
      invariant finalData == FinalData(seen)
      decreases todo
    {
      var rawKey :| rawKey in todo;
      var value := data[rawKey];
      finalData := AddEntry(finalData, rawKey, value, seen);
      seen := seen[rawKey := value];
      todo := todo - {rawKey};
    }
    SameEntries(seen, data);
  }

  /** A key outside the eight known ones is dropped. */
  lemma UnknownKeyDropped(data: map<string, string>, rawKey: string, value: string)
    requires forall f :: RawKey(f) != rawKey
    ensures FinalData(data[rawKey := value]) == FinalData(data)
  {
  }

  /** What ingesting a text yields: the validated record built from its key/value pairs. */
  function Ingest(raw: string): Result<Product, seq<Field>>
  {
    Validate(FinalData(ParseRaw(raw)))
  }

  /** `run`, given the file's text: parse, map the keys, validate. */
  method Run(raw: string) returns (r: Result<Product, seq<Field>>)
    ensures r == Ingest(raw)
  {
    var data := ParseRawText(raw);
    var finalData := BuildFinalData(data);
    r := Validate(finalData);
  }

  /** Validation of `final_data` succeeds exactly when all eight known keys were parsed, and otherwise names the fields whose keys are missing. */
  lemma FinalDataValidates(data: map<string, string>)
    ensures Validate(FinalData(data)).Ok? <==> forall f :: RawKey(f) in data
    ensures Validate(FinalData(data)).Err? ==> forall f :: f in Validate(FinalData(data)).error <==> RawKey(f) !in data
  {
    FinalDataConforms(data);
  }

  /** A field of `final_data` conforms exactly when its raw key was parsed. */
  lemma FinalDataConforms(data: map<string, string>)
    ensures forall f :: Conforms(FinalData(data), f) <==> RawKey(f) in data
  {
    forall f
      ensures Conforms(FinalData(data), f) <==> RawKey(f) in data
    {
      FieldsListed();
      assert f in FIELDS;
    }
  }

  /** A list field is the raw value split on ", ": never empty, and joining it with ", " gives the value back. */
  lemma ListFieldRoundTrip(value: string)
    ensures |SplitOn(value, ", ")| >= 1
    ensures Join(SplitOn(value, ", "), ", ") == value
  {
    SplitJoin(value, ", ");
  }

  /**
    Each field of a validated `final_data` is its raw key's value, the list
    fields split on ", " (never empty, and re-joining to the raw value).
   */
  lemma ValidatedFields(data: map<string, string>)
    requires Validate(FinalData(data)).Ok?
    ensures var p := Validate(FinalData(data)).value;
      && "Product Name" in data && p.productName == data["Product Name"]
      && "Concentration" in data && p.concentration == data["Concentration"]
      && "Skin Type" in data && p.skinType == SplitOn(data["Skin Type"], ", ")
      && "Key Ingredients" in data && p.keyIngredients == SplitOn(data["Key Ingredients"], ", ")
      && "Benefits" in data && p.benefits == SplitOn(data["Benefits"], ", ")
      && "How to Use" in data && p.howToUse == data["How to Use"]
      && "Side Effects" in data && p.sideEffects == data["Side Effects"]
      && "Price" in data && p.price == data["Price"]
      && |p.skinType| >= 1 && Join(p.skinType, ", ") == data["Skin Type"]
      && |p.keyIngredients| >= 1 && Join(p.keyIngredients, ", ") == data["Key Ingredients"]
      && |p.benefits| >= 1 && Join(p.benefits, ", ") == data["Benefits"]
  {
    FinalDataValidates(data);
    FieldsListed();
    assert RawKey(ProductName) in data && RawKey(Concentration) in data && RawKey(SkinType) in data;
    assert RawKey(KeyIngredients) in data && RawKey(Benefits) in data && RawKey(HowToUse) in data;
    assert RawKey(SideEffects) in data && RawKey(Price) in data;
    ListFieldRoundTrip(data["Skin Type"]);
    ListFieldRoundTrip(data["Key Ingredients"]);
    ListFieldRoundTrip(data["Benefits"]);
  }
}
