/** The URL scheme both the configuration file and the extension classpath are written with. */
module UrlScheme {
  const FileScheme: string := "file:"
}
