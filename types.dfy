/** The records the frontend passes around: the on-chain metadata of a content item and
    a rendered preview of it. The rendered element is a type parameter: the preview
    list never looks inside it. */
module Types {

  /** Metadata of one content item, as listed by the content contract. Fees are kept as
      the decimal strings the contract returns. */
  datatype FileObject = FileObject(
    cid: string,
    owner: string,
    fileType: string,
    feePaid: string,
    consumerFee: string,
    ownerName: string,
    title: string,
    description: string)

  /** One entry of the preview list: the cid, the rendered element and its metadata. */
  datatype PreviewContent<E> = PreviewContent(cid: string, element: E, fileObject: FileObject)
}
