/**
 * Upload size validators. The limits come from the settings module, which is
 * not part of this model, so they are parameters here.
 */
module Validators {

  import opened Wrappers

  const Megabyte: nat := 1024 * 1024

  datatype FileKind = Audio | Image

  /** The validation error raised for an oversized file, with the limit it reports in MB. */
  datatype SizeError = FileTooLarge(kind: FileKind, maxMegabytes: nat)

  /**
   * A size check: `None` when the file is accepted, the raised error otherwise.
   * The reported limit is the whole number of megabytes in the limit.
   */
  function CheckFileSize(kind: FileKind, size: nat, maxSize: nat): (r: Option<SizeError>)
    ensures r.None? <==> size <= maxSize
    ensures r.Some? ==> r.value.kind == kind
    ensures r.Some? ==> r.value.maxMegabytes * Megabyte <= maxSize < (r.value.maxMegabytes + 1) * Megabyte
  {
    if size > maxSize then Some(FileTooLarge(kind, maxSize / Megabyte)) else None
  }

  /** `validate_audio_file_size`. */
  function ValidateAudioFileSize(size: nat, maxAudioFileSize: nat): (r: Option<SizeError>)
    ensures r.None? <==> size <= maxAudioFileSize
    ensures r.Some? ==> r == Some(FileTooLarge(Audio, maxAudioFileSize / Megabyte))
  {
    CheckFileSize(Audio, size, maxAudioFileSize)
  }

  /** `validate_image_file_size`. */
  function ValidateImageFileSize(size: nat, maxImageFileSize: nat): (r: Option<SizeError>)
    ensures r.None? <==> size <= maxImageFileSize
    ensures r.Some? ==> r == Some(FileTooLarge(Image, maxImageFileSize / Megabyte))
  {
    CheckFileSize(Image, size, maxImageFileSize)
  }

  /** A file exactly at the limit passes and one byte more fails; smaller files pass too. */
  lemma LimitIsInclusive(kind: FileKind, size: nat, maxSize: nat)
    ensures CheckFileSize(kind, maxSize, maxSize).None?
    ensures CheckFileSize(kind, maxSize + 1, maxSize).Some?
    ensures size <= maxSize ==> CheckFileSize(kind, size, maxSize).None?
  {
  }
}
