/**
  Upload error classification (middleware/utils/errorHandler.js): the
  multer error codes for an oversized file and for too many files are the
  client's fault; any other upload error is the server's.
*/
module ErrorHandler {
  import opened Json

  /** `ErrorHandler.handleMulterError(error)`, given `error.code` (None when
      the error has no code). */
  function HandleMulterError(code: Option<string>): (r: StatusMessage)
    ensures code == Some("LIMIT_FILE_SIZE") ==> r == StatusMessage(400, "File size is too large. Max limit is 10MB")
    ensures code == Some("LIMIT_FILE_COUNT") ==> r == StatusMessage(400, "Too many files. Max limit is 20 files")
    ensures r.status == 400 <==> code == Some("LIMIT_FILE_SIZE") || code == Some("LIMIT_FILE_COUNT")
    ensures r.status != 400 ==> r == StatusMessage(500, "File upload error")
  {
    if code == Some("LIMIT_FILE_SIZE") then StatusMessage(400, "File size is too large. Max limit is 10MB")
    else if code == Some("LIMIT_FILE_COUNT") then StatusMessage(400, "Too many files. Max limit is 20 files")
    else StatusMessage(500, "File upload error")
  }
}
