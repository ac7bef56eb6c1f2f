/** The hand-off between the extractor, which uploads the day's export file,
    and the staging load, which copies from the URI get_s3_and_iam_details
    builds with its default date. */
module Handoff {
  import opened Wrappers
  import Dates
  import Extractor
  import RedshiftUtils

  /** With the pipeline's bucket configured, and the Redshift helpers loaded
      on the day the extractor ran, the default URI names exactly the object
      the extractor uploaded (bucket and key). */
  lemma {:induction false} StagingUriNamesUploadedObject(cfg: RedshiftUtils.Config, day: Dates.Date)
    requires cfg.bucketName == Extractor.Bucket
    ensures var uri := RedshiftUtils.GetS3AndIamDetails(cfg, RedshiftUtils.DefaultDate(day)).0;
            var key := Extractor.ExportFile(Dates.FormatYmd(day));
            RedshiftUtils.ParseS3Uri(uri) == Some((Extractor.Bucket, key))
  {
    RedshiftUtils.S3UriNamesExportObject(cfg, RedshiftUtils.DefaultDate(day));
  }

  /** When the helpers were loaded on a different day from the extraction
      (a run that crosses midnight, say), the default URI names some other
      object than the one uploaded. */
  lemma {:induction false} OtherDayNamesOtherObject(cfg: RedshiftUtils.Config,
                                                    loadedOn: Dates.Date, extractedOn: Dates.Date)
    requires cfg.bucketName == Extractor.Bucket
    requires loadedOn != extractedOn
    ensures var uri := RedshiftUtils.GetS3AndIamDetails(cfg, RedshiftUtils.DefaultDate(loadedOn)).0;
            var key := Extractor.ExportFile(Dates.FormatYmd(extractedOn));
            RedshiftUtils.ParseS3Uri(uri) != Some((Extractor.Bucket, key))
  {
    StagingUriNamesUploadedObject(cfg, loadedOn);
    var key1 := Extractor.ExportFile(Dates.FormatYmd(loadedOn));
    var key2 := Extractor.ExportFile(Dates.FormatYmd(extractedOn));
    if key1 == key2 {
      Extractor.ExportFileInjective(Dates.FormatYmd(loadedOn), Dates.FormatYmd(extractedOn));
      Dates.FormatYmdInjective(loadedOn, extractedOn);
    }
  }
}
