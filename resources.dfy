/**
 * A folder or file entry as the gateway returns it (a JSON object). Fields
 * the JavaScript reads with a fallback (`file.name || ''`) are optional.
 */
module Resources {
  import opened Wrappers

  datatype Entry = Entry(
    id: string,
    name: Option<string>,
    mimeType: Option<string>,
    size: Option<int>,
    trashed: Option<bool>)
}
