/**
 * Application settings (src/config.py). The values are read from the environment at
 * import time; here they are a record, and `Defaults` holds the values used when no
 * environment variable is set.
 */
module Config {
  import opened Wrappers

  datatype Settings = Settings(
    awsAccessKeyId: string,
    awsSecretAccessKey: string,
    awsRegion: string,
    bedrockModelId: string,
    bedrockEmbeddingModelId: string,
    llmTemperature: real,
    llmMaxTokens: int,
    llmTopP: real,
    chunkSize: int,
    chunkOverlap: int,
    topKResults: int,
    similarityThreshold: real,
    faissIndexPath: string,
    metadataPath: string)

  /** The settings with every environment variable unset. */
  const Defaults := Settings(
    "", "", "eu-north-1",
    "amazon.nova-pro-v1:0", "amazon.titan-embed-text-v2:0",
    0.1, 1000, 0.95,
    600, 50,
    5, 0.7,
    "vector_store/faiss_index", "vector_store/metadata.json")

  /** One validation rule: whether it passes, and the message reported when it does not. */
  datatype Check = Check(passes: bool, message: string)

  /** The validation rules in the order `validate` applies them. */
  function Checks(s: Settings): seq<Check> {
    [ Check(s.awsAccessKeyId != "", "AWS_ACCESS_KEY_ID is not set"),
      Check(s.awsSecretAccessKey != "", "AWS_SECRET_ACCESS_KEY is not set"),
      Check(s.awsRegion != "", "AWS_REGION is not set"),
      Check(s.bedrockModelId != "", "BEDROCK_MODEL_ID is not set"),
      Check(s.bedrockEmbeddingModelId != "", "BEDROCK_EMBEDDING_MODEL_ID is not set"),
      Check(s.chunkSize > 0, "CHUNK_SIZE must be positive"),
      Check(s.chunkOverlap < s.chunkSize, "CHUNK_OVERLAP must be less than CHUNK_SIZE"),
      Check(s.topKResults > 0, "TOP_K_RESULTS must be positive"),
      Check(0.0 <= s.similarityThreshold <= 1.0, "SIMILARITY_THRESHOLD must be between 0 and 1") ]
  }

  /** `Config.validate`: `(True, None)` or `(False, message)`, by a chain of guarded returns. */
  function Validate(s: Settings): (r: (bool, Option<string>))
    ensures r.0 <==> r.1 == None
    ensures r.0 <==> forall i :: 0 <= i < |Checks(s)| ==> Checks(s)[i].passes
  {
    if s.awsAccessKeyId == "" then
      assert !Checks(s)[0].passes; (false, Some("AWS_ACCESS_KEY_ID is not set"))
    else if s.awsSecretAccessKey == "" then
      assert !Checks(s)[1].passes; (false, Some("AWS_SECRET_ACCESS_KEY is not set"))
    else if s.awsRegion == "" then
      assert !Checks(s)[2].passes; (false, Some("AWS_REGION is not set"))
    else if s.bedrockModelId == "" then
      assert !Checks(s)[3].passes; (false, Some("BEDROCK_MODEL_ID is not set"))
    else if s.bedrockEmbeddingModelId == "" then
      assert !Checks(s)[4].passes; (false, Some("BEDROCK_EMBEDDING_MODEL_ID is not set"))
    else if s.chunkSize <= 0 then
      assert !Checks(s)[5].passes; (false, Some("CHUNK_SIZE must be positive"))
    else if s.chunkOverlap >= s.chunkSize then
      assert !Checks(s)[6].passes; (false, Some("CHUNK_OVERLAP must be less than CHUNK_SIZE"))
    else if s.topKResults <= 0 then
      assert !Checks(s)[7].passes; (false, Some("TOP_K_RESULTS must be positive"))
    else if !(0.0 <= s.similarityThreshold <= 1.0) then
      assert !Checks(s)[8].passes; (false, Some("SIMILARITY_THRESHOLD must be between 0 and 1"))
    else (true, None)
  }

  /** A failing validation reports the message of the first rule that fails, in rule order. */
  lemma ValidateReportsFirstFailure(s: Settings, i: nat)
    requires i < |Checks(s)|
    requires !Checks(s)[i].passes
    requires forall j :: 0 <= j < i ==> Checks(s)[j].passes
    ensures Validate(s) == (false, Some(Checks(s)[i].message))
  {
    var c := Checks(s);
    if i > 0 { assert c[0].passes; }
    if i > 1 { assert c[1].passes; }
    if i > 2 { assert c[2].passes; }
    if i > 3 { assert c[3].passes; }
    if i > 4 { assert c[4].passes; }
    if i > 5 { assert c[5].passes; }
    if i > 6 { assert c[6].passes; }
    if i > 7 { assert c[7].passes; }
  }

  /** With no environment variable set, validation stops at the missing access key. */
  lemma DefaultsLackAccessKey()
    ensures Validate(Defaults) == (false, Some("AWS_ACCESS_KEY_ID is not set"))
  {
  }

  /** A negative overlap passes validation, and both ends of the threshold range are accepted. */
  lemma AcceptedEdges(s: Settings)
    requires s.awsAccessKeyId != "" && s.awsSecretAccessKey != "" && s.awsRegion != ""
    requires s.bedrockModelId != "" && s.bedrockEmbeddingModelId != ""
    requires s.chunkSize > 0 && s.chunkOverlap < 0 && s.topKResults > 0
    requires s.similarityThreshold == 0.0 || s.similarityThreshold == 1.0
    ensures Validate(s) == (true, None)
  {
  }

  /** Overlap equal to the chunk size is rejected with the overlap message. */
  lemma OverlapEqualToSizeRejected(s: Settings)
    requires s.awsAccessKeyId != "" && s.awsSecretAccessKey != "" && s.awsRegion != ""
    requires s.bedrockModelId != "" && s.bedrockEmbeddingModelId != ""
    requires s.chunkSize > 0 && s.chunkOverlap == s.chunkSize
    ensures Validate(s) == (false, Some("CHUNK_OVERLAP must be less than CHUNK_SIZE"))
  {
  }
}
