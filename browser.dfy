/**
 * What a page asks of the browser: an `alert` dialog or a client-side
 * navigation with `router.push`, and the routes the pages navigate to.
 */
module Browser {

  datatype Effect = Alert(text: string) | Navigate(path: string)

  const SignInPath: string := "/entrar"
  const DashboardPath: string := "/dashboard"
  const AdminPath: string := "/propostas"
  const NewProposalPath: string := "/nova-proposta"
}
