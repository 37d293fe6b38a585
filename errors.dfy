/** The exceptions the modelled code raises, with the reason carried by each HTTPException. */
module Errors {

  /** Why an HTTPException was raised; each names the situation its `detail` message reports. */
  datatype Reason =
    | StoreChunksFailed      // a batch insert of a file's chunks raised
    | FileAlreadyExists      // the store already holds an uploaded file
    | FileIngestFailed       // ingesting an uploaded file failed
    | LinkListNotAList       // the decoded link list is not a list
    | LinkAlreadyExists      // the store already holds a link's page
    | LinkIngestFailed       // ingesting a link's page failed
    | NoFilesOrLinks         // neither files nor links were given
    | DeleteAllFailed        // dropping the whole collection raised
    | FolderRemoveFailed     // removing the upload folder raised
    | DeleteFileFailed       // deleting one file's partition raised
    | DeleteFolderUnsupported  // the local entry to delete is a directory

  datatype PyError =
    | HttpException(statusCode: int, reason: Reason)
    | ValueError(message: string)
    | UnboundLocalError
}
