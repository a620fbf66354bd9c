/**
 * EmailDetector.detectEmail, for file matches and for column matches. The
 * validator, Apache Commons' EmailValidator, is not part of this model: it
 * is the parameter isValidEmail, about which nothing is assumed.
 */
module EmailDetector {
  import opened Wrappers
  import opened Metadata

  const EmailProbability: real := 1.0
  const EmailModel: string := "email"

  /** CommonUtils.isEmptyString, taken to mean null or "". */
  predicate IsEmptyString(text: Option<string>) {
    text.None? || text.value == ""
  }

  /**
   * The string handed to the validator. Replacing a null or empty text by
   * "" changes only null: a present text, empty or not, is kept.
   */
  function EmailValue(text: Option<string>): (v: string)
    ensures text.Some? ==> v == text.value
    ensures text.None? ==> v == ""
    ensures v == "" <==> IsEmptyString(text)
  {
    if !IsEmptyString(text) then text.value else ""
  }

  /** The file overload: on a valid address, mark the carrier as an e-mail match and return it; otherwise null. */
  method DetectEmailInFile(metaData: FileMatchMetaData, text: Option<string>, isValidEmail: string -> bool)
    returns (r: FileMatchMetaData?)
    modifies metaData`averageProbability, metaData`model
    ensures r != null <==> isValidEmail(EmailValue(text))
    ensures r != null ==> r == metaData && metaData.averageProbability == EmailProbability && metaData.model == Some(EmailModel)
    ensures r == null ==> metaData.averageProbability == old(metaData.averageProbability) && metaData.model == old(metaData.model)
    ensures metaData.directory == old(metaData.directory) && metaData.fileName == old(metaData.fileName)
  {
    var emailValue := "";
    if !IsEmptyString(text) {
      emailValue := text.value;
    }
    if isValidEmail(emailValue) {
      metaData.SetAverageProbability(EmailProbability);
      metaData.SetModel(EmailModel);
      return metaData;
    }
    return null;
  }

  /** The column overload, the same contract on the database carrier. */
  method DetectEmailInColumn(metaData: MatchMetaData, text: Option<string>, isValidEmail: string -> bool)
    returns (r: MatchMetaData?)
    modifies metaData`averageProbability, metaData`model
    ensures r != null <==> isValidEmail(EmailValue(text))
    ensures r != null ==> r == metaData && metaData.averageProbability == EmailProbability && metaData.model == Some(EmailModel)
    ensures r == null ==> metaData.averageProbability == old(metaData.averageProbability) && metaData.model == old(metaData.model)
    ensures metaData.schemaName == old(metaData.schemaName) && metaData.tableName == old(metaData.tableName)
    ensures metaData.columnName == old(metaData.columnName)
  {
    var emailValue := "";
    if !IsEmptyString(text) {
      emailValue := text.value;
    }
    if isValidEmail(emailValue) {
      metaData.SetAverageProbability(EmailProbability);
      metaData.SetModel(EmailModel);
      return metaData;
    }
    return null;
  }

  /** For any text and any carriers, the two overloads find an address in the same cases. */
  method OverloadsAgree(fileMatch: FileMatchMetaData, columnMatch: MatchMetaData, text: Option<string>,
                        isValidEmail: string -> bool)
    returns (inFile: bool, inColumn: bool)
    modifies fileMatch`averageProbability, fileMatch`model, columnMatch`averageProbability, columnMatch`model
    ensures inFile == inColumn
    ensures fileMatch.model == columnMatch.model || !inFile
  {
    var r1 := DetectEmailInFile(fileMatch, text, isValidEmail);
    var r2 := DetectEmailInColumn(columnMatch, text, isValidEmail);
    inFile, inColumn := r1 != null, r2 != null;
  }

  /** A null text and an empty text have the same outcome on the same carrier state. */
  lemma NullLikeEmpty()
    ensures EmailValue(None) == EmailValue(Some(""))
  {
  }

  /**
   * Detecting twice with the same text answers the same and leaves the
   * carrier as one detection does, since only constants are written.
   */
  method DetectTwiceInFile(metaData: FileMatchMetaData, text: Option<string>, isValidEmail: string -> bool)
    returns (first: FileMatchMetaData?, second: FileMatchMetaData?)
    modifies metaData`averageProbability, metaData`model
    ensures first == second
    ensures first != null ==> metaData.averageProbability == EmailProbability && metaData.model == Some(EmailModel)
    ensures first == null ==> metaData.averageProbability == old(metaData.averageProbability) && metaData.model == old(metaData.model)
  {
    first := DetectEmailInFile(metaData, text, isValidEmail);
    second := DetectEmailInFile(metaData, text, isValidEmail);
  }

  /** The same for the column overload. */
  method DetectTwiceInColumn(metaData: MatchMetaData, text: Option<string>, isValidEmail: string -> bool)
    returns (first: MatchMetaData?, second: MatchMetaData?)
    modifies metaData`averageProbability, metaData`model
    ensures first == second
    ensures first != null ==> metaData.averageProbability == EmailProbability && metaData.model == Some(EmailModel)
    ensures first == null ==> metaData.averageProbability == old(metaData.averageProbability) && metaData.model == old(metaData.model)
  {
    first := DetectEmailInColumn(metaData, text, isValidEmail);
    second := DetectEmailInColumn(metaData, text, isValidEmail);
  }
}
