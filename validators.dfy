/** Small input checks and derived display values of app.py. */
module Validators {
  import opened Wrappers
  import opened Text
  import opened Models

  /** Avatar file extensions accepted by the upload form. */
  const AllowedExtensions: set<string> := {"png", "jpg", "jpeg", "gif", "webp"}

  /** Index of the last '.' in `s`, the split point of `s.rsplit(".", 1)`. */
  function LastDot(s: string): (r: Option<nat>)
    ensures r.None? <==> '.' !in s
    ensures r.Some? ==> r.value < |s| && s[r.value] == '.' && '.' !in s[r.value + 1..]
  {
    if s == [] then None
    else if s[|s| - 1] == '.' then Some(|s| - 1)
    else
      var r := LastDot(s[..|s| - 1]);
      assert s == s[..|s| - 1] + [s[|s| - 1]];
      if r.Some? then
        assert s[r.value + 1..] == s[..|s| - 1][r.value + 1..] + [s[|s| - 1]];
        r
      else r
  }

  /** `allowed_file`: the text after the last dot, lower-cased, is an allowed extension. */
  function AllowedFile(filename: string): (r: bool)
    ensures r ==> '.' in filename
  {
    match LastDot(filename)
    case None => false
    case Some(k) => Lower(filename[k + 1..]) in AllowedExtensions
  }

  /** A name is accepted exactly when the part after its final dot is an allowed extension. */
  lemma AllowedFileByExtension(stem: string, ext: string)
    requires '.' !in ext
    ensures AllowedFile(stem + "." + ext) <==> Lower(ext) in AllowedExtensions
  {
    var s := stem + "." + ext;
    var k := |stem|;
    assert s[k] == '.';
    assert s[k + 1..] == ext;
    assert LastDot(s) == Some(k);
  }

  /** The street-code test of the street request form. */
  predicate StreetCodeFormatOk(code: string)
  {
    IsAlnum(RemoveUnderscores(code)) && IsLower(code)
  }

  predicate IsCodeChar(c: char)
  {
    IsLowerLetter(c) || IsDigit(c) || c == '_'
  }

  /**
   * The code test accepts exactly the codes made of lower-case letters, digits and
   * underscores that contain at least one letter (so an all-digit code is refused,
   * because `islower()` needs a cased character).
   */
  lemma {:induction false} StreetCodeFormat(code: string)
    ensures StreetCodeFormatOk(code) <==>
      (forall i :: 0 <= i < |code| ==> IsCodeChar(code[i]))
      && (exists i :: 0 <= i < |code| && IsLowerLetter(code[i]))
  {
    var cleaned := RemoveUnderscores(code);
    if StreetCodeFormatOk(code) {
      forall i | 0 <= i < |code| ensures IsCodeChar(code[i]) {
        if code[i] != '_' {
          assert code[i] in cleaned;
          var j :| 0 <= j < |cleaned| && cleaned[j] == code[i];
          assert IsAlnumChar(cleaned[j]);
          assert !IsUpperLetter(code[i]);
        }
      }
    }
    if (forall i :: 0 <= i < |code| ==> IsCodeChar(code[i]))
      && (exists i :: 0 <= i < |code| && IsLowerLetter(code[i]))
    {
      var i :| 0 <= i < |code| && IsLowerLetter(code[i]);
      assert code[i] in cleaned;
      forall j | 0 <= j < |cleaned| ensures IsAlnumChar(cleaned[j]) {
        assert cleaned[j] in code;
      }
      forall j | 0 <= j < |code| ensures !IsUpperLetter(code[j]) {
        assert IsCodeChar(code[j]);
      }
    }
  }

  /** The validation errors of the three submission forms, in the order they are reported. */
  datatype FormError =
    | MissingStreetName
    | MissingStreetCode
    | MalformedStreetCode
    | StreetCodeTaken
    | MissingPavilionTitle
    | MissingAdTitle
    | MissingAdText

  /** `request_street`: checks of the stripped fields against the codes already in use. */
  function StreetFormErrors(name: string, code: string, pavilionTitle: string, takenCodes: set<string>): (errs: seq<FormError>)
    ensures errs == [] <==>
      name != [] && StreetCodeFormatOk(code) && code !in takenCodes && pavilionTitle != []
    ensures MissingStreetName in errs <==> name == []
    ensures MissingStreetCode in errs <==> code == []
    ensures MalformedStreetCode in errs <==> code != [] && !StreetCodeFormatOk(code)
    ensures StreetCodeTaken in errs <==> code != [] && StreetCodeFormatOk(code) && code in takenCodes
    ensures MissingPavilionTitle in errs <==> pavilionTitle == []
  {
    (if name == [] then [MissingStreetName] else [])
    + (if code == [] then [MissingStreetCode]
       else if !StreetCodeFormatOk(code) then [MalformedStreetCode]
       else if code in takenCodes then [StreetCodeTaken]
       else [])
    + (if pavilionTitle == [] then [MissingPavilionTitle] else [])
  }

  /** `pavilion_request`: the pavilion title and the first listing's title and text are required. */
  function PavilionFormErrors(pavilionTitle: string, adTitle: string, adText: string): (errs: seq<FormError>)
    ensures errs == [] <==> pavilionTitle != [] && adTitle != [] && adText != []
    ensures MissingPavilionTitle in errs <==> pavilionTitle == []
    ensures MissingAdTitle in errs <==> adTitle == []
    ensures MissingAdText in errs <==> adText == []
  {
    (if pavilionTitle == [] then [MissingPavilionTitle] else [])
    + (if adTitle == [] then [MissingAdTitle] else [])
    + (if adText == [] then [MissingAdText] else [])
  }

  /** `offer_ad`: the listing's title and text are required. */
  function AdFormErrors(title: string, text: string): (errs: seq<FormError>)
    ensures errs == [] <==> title != [] && text != []
    ensures MissingAdTitle in errs <==> title == []
    ensures MissingAdText in errs <==> text == []
  {
    (if title == [] then [MissingAdTitle] else [])
    + (if text == [] then [MissingAdText] else [])
  }

  /** Username of the listing's master account, or "" when it has none. */
  function AccountName(ad: Ad, usernames: map<int, string>): string
  {
    if ad.masterId.Some? && ad.masterId.value in usernames then usernames[ad.masterId.value] else ""
  }

  const DefaultMasterName: string := "Мастер"

  /**
   * `Ad.master_display_name`: never blank; the master's account name wins, then the
   * listing's stored author name, then the generic word for "master".
   */
  function MasterDisplayName(ad: Ad, usernames: map<int, string>): (r: string)
    ensures r != []
    ensures AccountName(ad, usernames) != [] ==> r == AccountName(ad, usernames)
    ensures AccountName(ad, usernames) == [] && ad.authorName.GetOr("") != [] ==> r == ad.authorName.value
    ensures AccountName(ad, usernames) == [] && ad.authorName.GetOr("") == [] ==> r == DefaultMasterName
  {
    var account := AccountName(ad, usernames);
    if account != [] then account
    else if ad.authorName.Some? && ad.authorName.value != [] then ad.authorName.value
    else DefaultMasterName
  }
}
