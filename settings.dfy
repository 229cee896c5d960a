/** The server's configuration: fixed data set once at start-up and only read
    afterwards. */
module Settings {

  datatype Config = Config(
    allowedPaths: seq<string>,
    allowedActions: map<string, bool>,
    maxFileSize: int,
    allowedFileTypes: seq<string>)

  /** The configuration the server installs at start-up. `maxFileSize` is
      10 MiB but nothing ever reads it. */
  const Init: Config := Config(
    ["/var/www/public", "/data/shared"],
    map["list_files" := true, "read_file" := true, "write_file" := true, "create_folder" := true],
    10 * 1024 * 1024,
    [".txt", ".json", ".csv", ".log"])
}
