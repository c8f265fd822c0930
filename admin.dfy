/**
 * The admin dashboard: promoting and demoting users, and the guide form
 * with its prefill and the payload it saves.
 */
module AdminDashboard {
  import opened Optional
  import opened Strings
  import opened Server

  datatype User = User(id: string, name: string, role: string)

  /** The Promote/Demote button's target role. */
  function ToggledRole(role: string): (r: string)
    ensures r == "admin" || r == "user"
    ensures r == "user" <==> role == "admin"
  {
    if role == "admin" then "user" else "admin"
  }

  /** Pressing the button twice restores a role that was 'admin' or 'user'; any other role ends as 'user'. */
  lemma ToggleTwice(role: string)
    ensures role == "admin" || role == "user" ==> ToggledRole(ToggledRole(role)) == role
    ensures role != "admin" && role != "user" ==> ToggledRole(ToggledRole(role)) == "user"
  {
  }

  /** `handleRoleChange`: once the server accepts, the matching users take the new role; a refusal changes nothing. */
  function WithRole(users: seq<User>, userId: string, newRole: string, reply: Reply<()>): (r: seq<User>)
    ensures |r| == |users|
    ensures reply.Failed? ==> r == users
    ensures reply.Ok? ==> forall i :: 0 <= i < |users| ==>
      r[i] == if users[i].id == userId then users[i].(role := newRole) else users[i]
  {
    if reply.Failed? then users
    else seq(|users|, i requires 0 <= i < |users| => if users[i].id == userId then users[i].(role := newRole) else users[i])
  }

  /** Promoting a user and then demoting them restores the list. */
  lemma PromoteThenDemote(users: seq<User>, userId: string)
    requires forall i :: 0 <= i < |users| && users[i].id == userId ==> users[i].role == "user"
    ensures WithRole(WithRole(users, userId, ToggledRole("user"), Ok(())), userId, ToggledRole("admin"), Ok(())) == users
  {
    var once := WithRole(users, userId, "admin", Ok(()));
    var twice := WithRole(once, userId, "user", Ok(()));
    assert forall i :: 0 <= i < |users| ==> twice[i] == users[i];
  }

  datatype Location = Location(country: Option<string>, city: Option<string>)

  /** A guide as the admin table holds it; missing fields are `None`. */
  datatype Guide = Guide(
    id: string,
    title: Option<string>,
    description: Option<string>,
    location: Option<Location>,
    category: Option<string>,
    history: Option<string>,
    culture: Option<string>,
    images: Option<seq<string>>)

  /** The guide form, with the flat `location.country` and `location.city` keys. */
  datatype GuideForm = GuideForm(
    title: string,
    description: string,
    country: string,
    city: string,
    category: string,
    history: string,
    culture: string,
    images: string)

  const BlankForm := GuideForm("", "", "", "", "Adventure", "", "", "")

  /** The dialog's state. */
  datatype GuideDialog = GuideDialog(open: bool, editingGuide: Option<Guide>, form: GuideForm)

  function Country(guide: Guide): Option<string> {
    if guide.location.Some? then guide.location.value.country else None
  }

  function City(guide: Guide): Option<string> {
    if guide.location.Some? then guide.location.value.city else None
  }

  /** `guide.images?.join(', ') || ''`. */
  function ImagesText(images: Option<seq<string>>): (r: string)
    ensures images == None ==> r == ""
    ensures images.Some? ==> r == JoinList(images.value)
  {
    if images.Some? then JoinList(images.value) else ""
  }

  /**
   * `openGuideForm`: for a guide, each field is copied with '' for a missing
   * or empty one and 'Adventure' for a missing category; without one, the
   * form is blank. Either way the dialog opens.
   */
  function OpenGuideForm(dialog: GuideDialog, guide: Option<Guide>): (r: GuideDialog)
    ensures r.open && r.editingGuide == guide
    ensures guide == None ==> r.form == BlankForm
    ensures guide.Some? ==> r.form == GuideForm(
      OrElse(guide.value.title, ""), OrElse(guide.value.description, ""),
      OrElse(Country(guide.value), ""), OrElse(City(guide.value), ""),
      OrElse(guide.value.category, "Adventure"),
      OrElse(guide.value.history, ""), OrElse(guide.value.culture, ""),
      ImagesText(guide.value.images))
  {
    match guide
    case None => GuideDialog(true, None, BlankForm)
    case Some(g) =>
      var form := GuideForm(
        OrElse(g.title, ""), OrElse(g.description, ""), OrElse(Country(g), ""), OrElse(City(g), ""),
        OrElse(g.category, "Adventure"), OrElse(g.history, ""), OrElse(g.culture, ""), ImagesText(g.images));
      GuideDialog(true, Some(g), form)
  }

  /** What `handleSaveGuide` sends. */
  datatype GuideData = GuideData(
    title: string,
    description: string,
    location: (string, string),
    category: string,
    history: string,
    culture: string,
    images: seq<string>)

  /** The flat location keys become a nested country/city pair; the images text is parsed into a list. */
  function GuideDataOf(form: GuideForm): (d: GuideData)
    ensures d.location == (form.country, form.city)
    ensures d.title == form.title && d.description == form.description && d.category == form.category
    ensures d.history == form.history && d.culture == form.culture
    ensures d.images == ParseCommaList(form.images)
    ensures forall i :: 0 <= i < |d.images| ==> IsListEntry(d.images[i])
  {
    var images := ParseCommaList(form.images);
    assert forall i :: 0 <= i < |images| ==> images[i] in images;
    GuideData(form.title, form.description, (form.country, form.city), form.category, form.history, form.culture, images)
  }

  /** The save goes to the edited guide's id, or creates a guide when none is being edited. */
  datatype SaveRequest = Create(data: GuideData) | Update(guideId: string, data: GuideData)

  function SaveRequestOf(dialog: GuideDialog): (r: SaveRequest)
    ensures r.data == GuideDataOf(dialog.form)
    ensures r.Update? <==> dialog.editingGuide.Some?
    ensures r.Update? ==> r.guideId == dialog.editingGuide.value.id
  {
    match dialog.editingGuide
    case None => Create(GuideDataOf(dialog.form))
    case Some(g) => Update(g.id, GuideDataOf(dialog.form))
  }

  /** Saving closes the dialog once the server accepts; a refusal leaves it open. */
  function SaveGuide(dialog: GuideDialog, reply: Reply<()>): (r: GuideDialog)
    ensures r.form == dialog.form && r.editingGuide == dialog.editingGuide
    ensures r.open == (dialog.open && reply.Failed?)
  {
    if reply.Ok? then dialog.(open := false) else dialog
  }

  /**
   * A guide whose fields are all set and non-empty, whose images are
   * trimmed, non-empty and comma-free, saves back as it was when the form
   * is left as opened.
   */
  lemma UnchangedFormSavesGuide(dialog: GuideDialog, g: Guide)
    requires g.title.Some? && g.description.Some? && g.category.Some? && g.history.Some? && g.culture.Some?
    requires g.title.value != "" && g.description.value != "" && g.category.value != ""
    requires g.history.value != "" && g.culture.value != ""
    requires g.location.Some? && g.location.value.country.Some? && g.location.value.city.Some?
    requires g.location.value.country.value != "" && g.location.value.city.value != ""
    requires g.images.Some? && forall i :: 0 <= i < |g.images.value| ==> IsListEntry(g.images.value[i])
    ensures GuideDataOf(OpenGuideForm(dialog, Some(g)).form) == GuideData(
      g.title.value, g.description.value, (g.location.value.country.value, g.location.value.city.value),
      g.category.value, g.history.value, g.culture.value, g.images.value)
  {
    ParseJoinRoundTrip(g.images.value);
  }
}
