/** The two language codes the CLI has templates for. Both commands take the
    language as a free-form flag string; only these two select a template. */
module Language {

  const English: string := "en"
  const Japanese: string := "ja"

  predicate Supported(language: string) {
    language == English || language == Japanese
  }
}
