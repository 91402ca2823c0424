/** The part of the project options that the README generator reads.
    Fields that never influence the generated text (access, author, base,
    directory, email) are not modelled. */
module SharedTypes {
  import opened Wrappers

  /** `create` scaffolds a fresh project; `migrate` retrofits an existing one. */
  datatype Mode = Create | Migrate

  datatype Options = Options(
    description: string,
    excludeAllContributors: Option<bool>,  // unset behaves like `false`
    funding: Option<string>,               // GitHub Sponsors account, if any
    mode: Mode,
    owner: string,
    repository: string,
    title: string
  )

  /** Contributor tracking is on unless it is explicitly excluded. */
  predicate IncludesAllContributors(o: Options)
  {
    o.excludeAllContributors != Some(true)
  }
}
