# Equinox launch goal of the Maven OSGi exec plugin

A Dafny model of the `exec-osgi-java` goal (`MVNJavaOSGiLaunch.execute()`): the part of
the goal that decides what the Equinox launcher is started with.

- **Launcher selection** (`LauncherSelection`): the first resolved artifact, in
  iteration order, whose artifactId is `org.eclipse.equinox.launcher`; the goal
  fails when there is none.
- **Command line** (`CommandLine`, `JavaOsgiLaunch.JavaOsgiLaunchMojo.AssembleCommand`):
  a list grown in place with `-configuration`, `file:<ini>`, the program arguments,
  and the tokens of the optional `exec.args` string. A tokenizer error stops the goal
  with the tokenizer's message.
- **Extension classpath** (`FrameworkClasspath`): when the VM properties hold the
  framework-extensions key, `osgi.frameworkClassPath` is set to `.,` followed by
  `Collectors.joining(",", "file:", "")` of the extension paths. The `file:` scheme is
  a prefix of the whole joined string, so only the first path carries it. The
  `trim().isEmpty()` guard in front of the `put` can never fail, because the string
  always starts with `file:`; an empty set of extensions therefore still writes `.,file:`.
- **The goal** (`JavaOsgiLaunch.JavaOsgiLaunchMojo.Execute`): the steps above in the
  source's order, then the VM properties copied into the system property table, and the
  invocation handed to the worker thread. A missing launcher stops the goal before the
  command line is built; a tokenizer error stops it before any property is touched.

The tokenizer (`CommandLineUtils.translateCommandline`) is a parameter of type
`string -> Result<seq<string>, string>`. The configuration file path, the extension
paths, the program arguments, the VM property map and the framework-extensions key
come from the goal's base class, which is not part of this model; they are inputs.
The extension paths are a sequence in the caller's chosen order, because the source
keeps them in a `HashSet` whose iteration order is unspecified.

The guard `!extensionClasspath.trim().isEmpty()` can never be false
(`FrameworkClasspath.ClasspathNeverBlank`), so an empty extension set writes
`.,file:` (`FrameworkClasspath.EmptyExtensionsWriteBareScheme`).

## Model

| member | source | states |
|---|---|---|
| LauncherSelection.FirstLauncherIndex | maven-osgi-exec-plugin/src/main/java/at/bestsolution/maven/osgi/exec/MVNJavaOSGiLaunch.java:50-51 | the index found holds a launcher artifact and no earlier index does; no index is found only when no artifact is a launcher |
| LauncherSelection.LauncherUrl | maven-osgi-exec-plugin/src/main/java/at/bestsolution/maven/osgi/exec/MVNJavaOSGiLaunch.java:50-58 | the optional is empty exactly when no artifact is the launcher; otherwise it holds the location of the first launcher artifact |
| LauncherSelection.UniqueLauncherSelected | maven-osgi-exec-plugin/src/main/java/at/bestsolution/maven/osgi/exec/MVNJavaOSGiLaunch.java:50-51 | with exactly one launcher artifact, its location is selected |
| LauncherSelection.SelectionIgnoresOrder | maven-osgi-exec-plugin/src/main/java/at/bestsolution/maven/osgi/exec/MVNJavaOSGiLaunch.java:50-51 | when all launcher artifacts are the same artifact, any reordering of the artifacts selects the same location (or none in both) |
| CommandLine.Command | maven-osgi-exec-plugin/src/main/java/at/bestsolution/maven/osgi/exec/MVNJavaOSGiLaunch.java:62-67 | the command line fails exactly when `exec.args` is set and the tokenizer fails, with the tokenizer's message; otherwise index 0 is `-configuration`, index 1 is `file:` + ini, the program arguments follow unchanged and in order, and after them come nothing (no `exec.args`) or exactly the tokens |
| CommandLine.CommandWithoutAdHocArguments | maven-osgi-exec-plugin/src/main/java/at/bestsolution/maven/osgi/exec/MVNJavaOSGiLaunch.java:100 | without `exec.args` the command line is exactly the configuration pair followed by the program arguments |
| CommandLine.AdHocArgumentsExtend | maven-osgi-exec-plugin/src/main/java/at/bestsolution/maven/osgi/exec/MVNJavaOSGiLaunch.java:99-102 | when tokenizing succeeds, the command line is the one without `exec.args` with the tokens appended in tokenizer order |
| JavaOsgiLaunch.JavaOsgiLaunchMojo.AppendCommandLineArgumentsTo | maven-osgi-exec-plugin/src/main/java/at/bestsolution/maven/osgi/exec/MVNJavaOSGiLaunch.java:99-107 | an unset `exec.args` leaves the list alone; tokens are appended at the end in order; a tokenizer error is reported with its message and the list is left as it was |
| JavaOsgiLaunch.JavaOsgiLaunchMojo.AssembleCommand | maven-osgi-exec-plugin/src/main/java/at/bestsolution/maven/osgi/exec/MVNJavaOSGiLaunch.java:62-67 | the list grown by `add`/`addAll` is the command line `CommandLine.Command` describes, and the error is the tokenizer's message |
| FrameworkClasspath.Joining | maven-osgi-exec-plugin/src/main/java/at/bestsolution/maven/osgi/exec/MVNJavaOSGiLaunch.java:70 | `Collectors.joining(sep, prefix, suffix)`: the prefix starts and the suffix ends the result, the joined parts lie between them, and with no parts the result is prefix followed by suffix |
| FrameworkClasspath.JoinSnoc | maven-osgi-exec-plugin/src/main/java/at/bestsolution/maven/osgi/exec/MVNJavaOSGiLaunch.java:70 | joining one more element adds the separator and that element, unchanged, at the end |
| FrameworkClasspath.ExtensionClasspath | maven-osgi-exec-plugin/src/main/java/at/bestsolution/maven/osgi/exec/MVNJavaOSGiLaunch.java:70 | the joined extension classpath always starts with `file:` |
| FrameworkClasspath.ExtensionClasspathSnoc | maven-osgi-exec-plugin/src/main/java/at/bestsolution/maven/osgi/exec/MVNJavaOSGiLaunch.java:70 | a path after the first is appended after a comma as it is, without its own `file:` |
| FrameworkClasspath.TwoExtensions | maven-osgi-exec-plugin/src/main/java/at/bestsolution/maven/osgi/exec/MVNJavaOSGiLaunch.java:70 | the paths `/a/ext1`, `/a/ext2` give `file:/a/ext1,/a/ext2` |
| FrameworkClasspath.TrimStart | maven-osgi-exec-plugin/src/main/java/at/bestsolution/maven/osgi/exec/MVNJavaOSGiLaunch.java:71 | the result is a suffix of the input, everything dropped is a character up to the space, and the result does not start with one |
| FrameworkClasspath.TrimEnd | maven-osgi-exec-plugin/src/main/java/at/bestsolution/maven/osgi/exec/MVNJavaOSGiLaunch.java:71 | the result is a prefix of the input, everything dropped is a character up to the space, and the result does not end with one |
| FrameworkClasspath.Trim | maven-osgi-exec-plugin/src/main/java/at/bestsolution/maven/osgi/exec/MVNJavaOSGiLaunch.java:71 | `String.trim()` is empty exactly when every character is at most the space; otherwise it neither starts nor ends with such a character |
| FrameworkClasspath.TrimKeepsVisibleStart | maven-osgi-exec-plugin/src/main/java/at/bestsolution/maven/osgi/exec/MVNJavaOSGiLaunch.java:71 | a string whose first character is above the space trims to a non-empty string with the same first character |
| FrameworkClasspath.ClasspathNeverBlank | maven-osgi-exec-plugin/src/main/java/at/bestsolution/maven/osgi/exec/MVNJavaOSGiLaunch.java:70-71 | the guard `!extensionClasspath.trim().isEmpty()` holds for every set of extension paths, the empty one included |
| FrameworkClasspath.WithFrameworkClassPath | maven-osgi-exec-plugin/src/main/java/at/bestsolution/maven/osgi/exec/MVNJavaOSGiLaunch.java:69-74 | without the framework-extensions key the VM property map is unchanged; with it, `osgi.frameworkClassPath` is always set to `.,file:` followed by the comma-joined paths; no other key is added, removed or given a new value |
| FrameworkClasspath.EmptyExtensionsWriteBareScheme | maven-osgi-exec-plugin/src/main/java/at/bestsolution/maven/osgi/exec/MVNJavaOSGiLaunch.java:70-72 | with the key present and no extension paths, `osgi.frameworkClassPath` is set to `.,file:` |
| JavaOsgiLaunch.PropertyTable.PutAll | maven-osgi-exec-plugin/src/main/java/at/bestsolution/maven/osgi/exec/MVNJavaOSGiLaunch.java:76 | the system properties become the old ones overridden by the VM properties |
| JavaOsgiLaunch.JavaOsgiLaunchMojo.Execute | maven-osgi-exec-plugin/src/main/java/at/bestsolution/maven/osgi/exec/MVNJavaOSGiLaunch.java:46-97 | no launcher: fails with `LauncherNotFound`, nothing changed; tokenizer error: fails with its message, VM and system properties unchanged; otherwise the VM properties get the extension classpath, the system properties are overridden by them, and the launcher's `main` is invoked through the launcher's URL with the command line |

## Left out

- `generateConfigIni`, `programArguments`, `vmProperties` and `OSGI_FRAMEWORK_EXTENSIONS` come from the base class `MVNBaseOSGiLaunchPlugin`, which is not part of this model; they are inputs (the key is a constant field set by the constructor).
- `CommandLineUtils.translateCommandline` is a parameter, not re-implemented, so the split of a concrete string such as `-console -clean` into tokens is not modelled.
- `File.toURL()` and its `MalformedURLException`: the launcher's URL is modelled as the artifact's location string.
- `URLClassLoader` construction, the worker thread, the reflective lookup and call of `main`, `join()` and the logging of reflective failures and interrupts are left out (class loading, reflection and concurrency); `Execute` returns the invocation the thread is started with and, like the source, reports success whatever that invocation does.
- The process-global `System.getProperties()` is a `PropertyTable` object passed to `Execute`; races between concurrent goals are not modelled.
- Logging is not modelled.
