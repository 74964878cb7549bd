/**
 * `uploadPgn` of app/actions.ts: the server action that accepts an uploaded
 * PGN file.  The form's `file` entry is absent, a text field, or a file with
 * a name; the file's contents are not read.
 */
module Actions {
  import opened JsText

  datatype FormEntry = Missing | TextField(text: string) | FileField(name: string)

  datatype UploadResult = UploadResult(success: bool, message: string, fileName: Option<string>)

  /** The entry is falsy: absent, or an empty text field. */
  predicate IsFalsy(entry: FormEntry) {
    entry.Missing? || entry == TextField("")
  }

  /**
   * `uploadPgn(formData)`.  A non-empty text field has no `name`, so reading
   * `name.endsWith` throws, and the `catch` turns that into the generic error.
   */
  function UploadPgn(entry: FormEntry): (r: UploadResult)
    ensures r.success <==> entry.FileField? && EndsWith(entry.name, ".pgn")
    ensures r.fileName.Some? <==> r.success
    ensures r.success ==> r.fileName == Some(entry.name) && r.message == "File uploaded successfully"
    ensures IsFalsy(entry) ==> r == UploadResult(false, "No file uploaded", None)
    ensures entry.FileField? && !EndsWith(entry.name, ".pgn") ==> r == UploadResult(false, "File must be a PGN file", None)
    ensures entry.TextField? && entry.text != "" ==> r == UploadResult(false, "Error uploading file", None)
  {
    if IsFalsy(entry) then UploadResult(false, "No file uploaded", None)
    else if entry.TextField? then UploadResult(false, "Error uploading file", None)
    else if !EndsWith(entry.name, ".pgn") then UploadResult(false, "File must be a PGN file", None)
    else UploadResult(true, "File uploaded successfully", Some(entry.name))
  }

  /** The suffix test is case-sensitive: an upper-case extension is refused. */
  lemma SuffixIsCaseSensitive()
    ensures !UploadPgn(FileField("game.PGN")).success
    ensures UploadPgn(FileField("game.pgn")).success
  {
    assert "game.PGN"[4..] != ".pgn" by {
      assert "game.PGN"[4..][1] == 'P';
    }
    assert "game.pgn"[4..] == ".pgn";
  }

  /** An accepted upload always names a `.pgn` file, and every failure says why without a file name. */
  lemma AcceptedNamesArePgn(entry: FormEntry)
    ensures var r := UploadPgn(entry);
            (r.success ==> EndsWith(r.fileName.value, ".pgn"))
            && (!r.success ==> r.message in {"No file uploaded", "File must be a PGN file", "Error uploading file"})
  {
  }
}
