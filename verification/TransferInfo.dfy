/** What the source tells the destination before a transfer (src/message.h:29-53). */
module TransferInfo {

  datatype FileInfo = FileInfo(relativePath: string, fileSize: nat, posixPerm: nat)

  datatype DirectoryInfo = DirectoryInfo(relativePath: string, posixPerm: nat)

  datatype TransferInfo = TransferInfo(
    sourceIsDirectory: bool, dirsInfo: seq<DirectoryInfo>, filesInfo: seq<FileInfo>)
}
