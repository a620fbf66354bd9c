/**
 * The two match carriers the e-mail detector writes into: a database column
 * match and a file match. Their Java classes are not part of this model;
 * the identity fields below stand for the ones they carry besides the two
 * the detector sets, and a null model is None.
 */
module Metadata {
  import opened Wrappers

  /** A match found in a database column. */
  class MatchMetaData {
    var schemaName: string
    var tableName: string
    var columnName: string
    var averageProbability: real
    var model: Option<string>

    constructor(schemaName: string, tableName: string, columnName: string)
      ensures this.schemaName == schemaName && this.tableName == tableName && this.columnName == columnName
      ensures averageProbability == 0.0 && model == None
    {
      this.schemaName := schemaName;
      this.tableName := tableName;
      this.columnName := columnName;
      averageProbability := 0.0;
      model := None;
    }

    method SetAverageProbability(p: real)
      modifies this`averageProbability
      ensures averageProbability == p
    {
      averageProbability := p;
    }

    method SetModel(m: string)
      modifies this`model
      ensures model == Some(m)
    {
      model := Some(m);
    }
  }

  /** A match found in a file. */
  class FileMatchMetaData {
    var directory: string
    var fileName: string
    var averageProbability: real
    var model: Option<string>

    constructor(directory: string, fileName: string)
      ensures this.directory == directory && this.fileName == fileName
      ensures averageProbability == 0.0 && model == None
    {
      this.directory := directory;
      this.fileName := fileName;
      averageProbability := 0.0;
      model := None;
    }

    method SetAverageProbability(p: real)
      modifies this`averageProbability
      ensures averageProbability == p
    {
      averageProbability := p;
    }

    method SetModel(m: string)
      modifies this`model
      ensures model == Some(m)
    {
      model := Some(m);
    }
  }
}
