# Jira Server lookup layer, modelled in Dafny

This project models the service layer of a Terraform provider for Jira
Server. The provider manages permission schemes, project roles, issue types,
screens, groups and permission-scheme grants over the Jira REST API
(version 2). Jira's endpoints address most entities by id, while the provider's
users name them. So almost every service operation is "list, then select":
fetch a collection, scan it for the entry the caller means, then act on that
entry's id.

The model captures, service by service:

- the URL, verb, headers and body of every request an operation would send;
- the error ladder an HTTP round trip goes through (request not built, send
  failed, body unreadable, body not decodable) and the exact error message at
  each step;
- the selection rule of each lookup: a last match with no early exit (permission
  schemes, project roles, grants), or a first match with a `break` (issue types),
  or simply element 0 of the listing (screens, groups);
- the Go zero value used as the "not found" sentinel, and the cases where that
  sentinel leaks into a later request;
- grant resolution, which turns the caller's role name into a numeric role id,
  compares it with the decimal text the server lists, and puts the role name
  back into the answer.

HTTP answers are inputs. An `Http.Outcome` says whether the request could not
be built, could not be sent, or was answered; an answer's body is unreadable,
malformed, or decoded into a value. Operations that call other operations
(Update and Delete call Get, Create calls Update, the grant operations call
the scheme and role lookups) take those calls' results as inputs too.
Operations return their result together with the request they would have
handed to the HTTP client (`None` when no request was built).

Modules (one per service file, plus shared pieces):

- `Wrappers`: `Option`, `Result`, `Unit`.
- `Decimal`: `strconv.FormatInt(n, 10)` on 64-bit integers, with a parser that
  proves it injective.
- `Strings`: `strings.ToLower`, restricted to ASCII.
- `UrlEscape`: `url.QueryEscape`, including UTF-8 percent-encoding.
- `Http`: the connection settings, requests, outcomes, and the error ladder.
- `Lookup`: the two scan loops (last match, first match) as methods proved
  against recursive specification functions.
- `PermissionSchemeService`, `ProjectRoleService`, `IssueTypeService`,
  `ScreenService`, `GroupService`, `GrantService`: one per service file.

## Model

| member | source | states |
|---|---|---|
| Decimal.FormatInt | services/grantservice/GrantService.go:60 | the decimal text of an id is non-empty, starts with '-' exactly when the id is negative, and holds only digits and '-' |
| Decimal.FormatRoundTrip | services/grantservice/GrantService.go:60 | parsing the decimal text of any 64-bit id gives back that id |
| Decimal.FormatInjective | services/grantservice/GrantService.go:60 | two ids have the same decimal text exactly when they are equal, so comparing a listed holder parameter with the formatted role id compares ids |
| Strings.ToLower | services/grantservice/GrantService.go:60 | lower-casing keeps the length and maps every character to its ASCII lower-case form, leaving the rest unchanged |
| Strings.ToLowerIdempotent | services/grantservice/GrantService.go:60 | lower-casing an already lower-cased holder type changes nothing |
| Strings.ToLowerEqual | services/grantservice/GrantService.go:60 | two holder types compare equal after lower-casing exactly when they have the same length and agree character by character up to ASCII case |
| UrlEscape.QueryEscapeIsSafe | services/screenservice/ScreenService.go:56 | every character of an escaped screen name is unreserved, '+' or '%' |
| UrlEscape.QueryEscapeKeepsUnreserved | services/screenservice/ScreenService.go:56 | a screen name made only of unreserved characters is left as it is |
| Http.Decode | services/permissionschemeservice/PermissionSchemeService.go:57-93 | a round trip succeeds exactly when the server answered and the body was read and decoded, and then yields the decoded value; each failing step gives its own error: the build error, the caller's send error, the read error, the decode error |
| Http.Complete | services/projectroleservice/ProjectRoleService.go:212-233 | a round trip whose body is ignored succeeds exactly when the request was built and sent, whatever the status |
| Http.ItemUrlInjective | services/projectroleservice/ProjectRoleService.go:212 | URLs of the form collection/{id} name one id: equal URLs mean equal ids |
| Lookup.LastIndex | services/permissionschemeservice/PermissionSchemeService.go:39-44 | the index kept by a scan without early exit is a match with no match after it, and there is none exactly when nothing matches |
| Lookup.FirstIndex | services/issuetypeservice/IssueTypeService.go:81-87 | the index kept by a scan that breaks at the first hit is a match with no match before it, and there is none exactly when nothing matches |
| Lookup.ScanLast | services/grantservice/GrantService.go:58-64 | the loop that overwrites its candidate on every hit ends holding the last match, or the zero value when nothing matches |
| Lookup.ScanFirst | services/issuetypeservice/IssueTypeService.go:81-87 | the loop that stops at the first hit ends holding the first match, or the zero value when nothing matches |
| Lookup.LastAndFirstAgree | services/grantservice/GrantService.go:59-64 | a last-match scan and a first-match scan pick the same position exactly when no two entries match |
| Lookup.LastOrAppend | services/projectroleservice/ProjectRoleService.go:99-103 | appending a matching entry makes it the one the scan keeps; appending a non-matching entry changes nothing |
| PermissionSchemeService.List | services/permissionschemeservice/PermissionSchemeService.go:54-94 | the listing succeeds exactly when the server answered and the body was read and decoded, and then is the decoded list; a build failure, a failed send, an unreadable body and an undecodable body each give their own message, the failed send 'http request returned error' |
| PermissionSchemeService.Selected | services/permissionschemeservice/PermissionSchemeService.go:31-52 | Get succeeds exactly when the listing succeeded and the last scheme with the requested id has a non-empty name, and then returns that scheme; otherwise it fails with the list error or the not-found message |
| PermissionSchemeService.Get | services/permissionschemeservice/PermissionSchemeService.go:31-52 | the scanning loop computes Selected |
| PermissionSchemeService.Update | services/permissionschemeservice/PermissionSchemeService.go:145-203 | a failed lookup is returned unchanged with nothing sent; otherwise a PUT to permissionscheme/{id} carries the found name and the new description, and the answer goes through the error ladder |
| PermissionSchemeService.Delete | services/permissionschemeservice/PermissionSchemeService.go:205-233 | the DELETE is sent even when the lookup failed, then to permissionscheme/0; it succeeds exactly when the server answered |
| PermissionSchemeService.LaterDuplicateWins | services/permissionschemeservice/PermissionSchemeService.go:39-44 | in a listing of two schemes sharing an id, Get returns the later one when the later one has a non-empty name |
| PermissionSchemeService.EmptyNameIsNotFound | services/permissionschemeservice/PermissionSchemeService.go:45-48 | in any listing, when the last listed scheme with the requested id has an empty name, Get reports it as not found |
| ProjectRoleService.ListRoles | services/projectroleservice/ProjectRoleService.go:113-152 | the listing succeeds exactly when the server answered and the body was read and decoded, and then is the decoded list; a build failure, a failed send, an unreadable body and an undecodable body each give their own message, the failed send 'http request returned error' |
| ProjectRoleService.Selected | services/projectroleservice/ProjectRoleService.go:90-111 | GetRole succeeds exactly when the listing succeeded and the last role with the requested id does not have both an empty name and an empty description, and then returns that role |
| ProjectRoleService.GetRole | services/projectroleservice/ProjectRoleService.go:90-111 | the scanning loop computes Selected |
| ProjectRoleService.UpdateRole | services/projectroleservice/ProjectRoleService.go:31-88 | a failed lookup gives the update-not-found error with nothing sent; otherwise a PUT to role/{id} carries the requested name and description |
| ProjectRoleService.DeleteRole | services/projectroleservice/ProjectRoleService.go:202-234 | a failed lookup gives the delete-not-found error with nothing sent; otherwise a DELETE to role/{id}: a request that cannot be built gives the build error, a failed send gives 'error result from http request', and any answer, whatever its status, is success |
| ProjectRoleService.DescriptionAloneSuffices | services/projectroleservice/ProjectRoleService.go:104-107 | in any listing, when the last role with the requested id has an empty name but a non-empty description, GetRole returns that role |
| IssueTypeService.List | services/issuetypeservice/IssueTypeService.go:29-70 | the listing succeeds exactly when the server answered and the body was read and decoded, and then is the decoded list; a build failure, a failed send, an unreadable body and an undecodable body each give their own message, the failed send 'http request returned error' |
| IssueTypeService.Relay | services/issuetypeservice/IssueTypeService.go:108-144 | when the request cannot be built or sent the HTTP library's own error is passed on; the other steps give the standard errors |
| IssueTypeService.Selected | services/issuetypeservice/IssueTypeService.go:72-96 | a failed listing is passed on; otherwise Get always succeeds, with the first issue type of the requested name, or the zero value when none has that name or the one found has an empty id |
| IssueTypeService.Get | services/issuetypeservice/IssueTypeService.go:72-96 | the loop that breaks at the first hit computes Selected |
| IssueTypeService.Update | services/issuetypeservice/IssueTypeService.go:162-219 | a failed lookup is passed on with nothing sent; otherwise a PUT to issuetype/{id} carries the new name, description and avatar id; when no type has the name, the PUT goes to the collection URL issuetype/ |
| IssueTypeService.Delete | services/issuetypeservice/IssueTypeService.go:221-255 | a failed lookup is passed on with nothing sent; otherwise a DELETE to issuetype/{id}: a request that cannot be built gives the build error, a failed send gives 'http request returned error', and any answer, whatever its status, is success |
| IssueTypeService.Create | services/issuetypeservice/IssueTypeService.go:98-160 | the POST always asks for a standard type and carries no avatar; when it succeeds, an Update by name follows, a PUT with the authorization and JSON content-type headers carrying the caller's name, description and avatar id; a failed Update is reported as the decode error; on success the POST's answer is returned |
| ScreenService.List | services/screenservice/ScreenService.go:53-93 | the listing succeeds exactly when the server answered and the body was read and decoded, and then is the decoded list; a build failure, a failed send, an unreadable body and an undecodable body each give their own message, the failed send 'http request returned error' |
| ScreenService.Get | services/screenservice/ScreenService.go:31-51 | Get fails when the listing failed or is empty, and otherwise returns the first listed screen |
| ScreenService.Update | services/screenservice/ScreenService.go:144-199 | a failed lookup is passed on with nothing sent; otherwise a PUT to screens/{id of the first listed screen} carries the new name and description |
| ScreenService.Delete | services/screenservice/ScreenService.go:201-234 | a failed lookup is passed on with nothing sent; otherwise a DELETE to screens/{id of the first listed screen}: a request that cannot be built gives the build error, a failed send gives 'error result from http request', and any answer, whatever its status, is success |
| ScreenService.FirstScreenWhateverItsName | services/screenservice/ScreenService.go:42-47 | Get returns the first screen of the search even when its name differs from the requested one |
| ScreenService.ListQueryIsOneParameter | services/screenservice/ScreenService.go:56 | whatever the screen name, the query string after "querystring=" holds no '&', '#' or '=', so the name stays one parameter value |
| GroupService.List | services/groupservice/GroupService.go:101-141 | the listing succeeds exactly when the server answered and the body was read and decoded, and then is the decoded list; a build failure, a failed send, an unreadable body and an undecodable body each give their own message, the failed send 'http request returned error' |
| GroupService.Get | services/groupservice/GroupService.go:79-99 | a failed listing is passed on; an empty listing succeeds with the zero group; otherwise the first listed group is returned |
| GroupService.Delete | services/groupservice/GroupService.go:143-172 | a DELETE to group?groupname={raw name}; it succeeds exactly when the server answered and the body could be read |
| GroupService.EmptyAnswerLooksLikeUnnamedGroup | services/groupservice/GroupService.go:90-93 | for every request, an empty answer and an answer whose first group has an empty name give the same result: the zero-valued group with no error |
| GroupService.RawNameCanAddParameter | services/groupservice/GroupService.go:103 | every group name is appended to the search URL as it is, so any name holding '&' puts an '&' into the query string and starts a second parameter |
| GrantService.List | services/grantservice/GrantService.go:75-126 | a failed scheme lookup gives the scheme-not-found error with nothing sent; otherwise the grants are listed with a GET to permissionscheme/{scheme id}/permission |
| GrantService.Found | services/grantservice/GrantService.go:35-73 | Get fails with the scheme error, then the role error naming the role, then the grant-not-found error; it succeeds exactly when a last match with a non-empty permission exists, and then returns that grant with the caller's role name as holder parameter |
| GrantService.Get | services/grantservice/GrantService.go:35-73 | the scan without early exit followed by the parameter overwrite computes Found |
| GrantService.Create | services/grantservice/GrantService.go:128-206 | the role is resolved before the scheme; the POST to the scheme's grants carries the permission, the holder type and the numeric role id; the answer keeps the server's id, permission and holder type but takes the caller's scheme name and role name |
| GrantService.Delete | services/grantservice/GrantService.go:208-255 | the scheme is resolved, then the grant through Get; only when both succeed is a DELETE to permissionscheme/{scheme id}/permission/{grant id} sent, and it succeeds exactly when the server answered |
| GrantService.MatchesComparesIds | services/grantservice/GrantService.go:60 | when the listed holder parameter is the decimal text of an id, the match compares that id with the role id |
| GrantService.HolderTypeIgnoresCase | services/grantservice/GrantService.go:60 | the holder type matches without regard to ASCII case |
| GrantService.PermissionIsCaseSensitive | services/grantservice/GrantService.go:60 | a listed grant whose permission differs from the requested one in any way, case included, never matches, and a listing holding only such a grant gives the grant-not-found error |
| GrantService.LaterDuplicateWins | services/grantservice/GrantService.go:58-64 | with two grants matching a request whose permission is non-empty, Get returns the later one, its id and all, with the caller's holder parameter |
| GrantService.CreatedGrantIsFound | services/grantservice/GrantService.go:155-162 | a grant created for a role with a non-empty permission, listed with that role's id as decimal text and with no later grant in the listing matching, is found by Get with the same permission and role name, and Get hands back the role name |
| GrantService.GrantUrlInjective | services/grantservice/GrantService.go:233 | the DELETE URL names one grant: equal URLs mean equal scheme ids and equal grant ids |

## Left out

- The HTTP transport, JSON encoding and decoding, and logging are not modelled. Each HTTP round trip is an input `Http.Outcome`, and a decoded body is the value the Go struct would hold.
- The status code of an answer is never inspected by the services, so it is carried in `Http.Outcome` but no contract depends on it.
- The Create operations of permission schemes, project roles, screens and groups are not modelled: they are a single POST with no lookup, and the lookup layer is what this model covers. Issue type and grant Create are modelled, because they call Update and the lookups.
- The Terraform resource adapters and the provider configuration are not modelled.
- Strings.ToLower: covers ASCII letters only; Go's `strings.ToLower` also maps non-ASCII upper-case letters.
- GrantService.Get: the scheme and role lookups are inputs rather than calls. services/grantservice/models/GrantGetRequestModel.go:4 declares a scheme id, yet services/grantservice/GrantService.go:39 reads a scheme name, and both lookups it calls match on the id field while being handed names; the model takes each lookup's answer as given and its request carries a scheme name.
- GrantService.Create: services/grantservice/models/GrantCreateRequestModel.go:4-6 declares a scheme id and a numeric API holder, yet services/grantservice/GrantService.go:148 and :202 read a scheme name and the service uses the holder parameter as a role name. The model follows the service: the request carries a scheme name and a text holder parameter.
- GrantService.Delete: services/grantservice/models/GrantDeleteRequestModel.go:4 declares a scheme id, yet services/grantservice/GrantService.go:216 and :226 read a scheme name. The model follows the service and takes the scheme lookup's answer as an input.
- GrantService.List: the grant list request model is not part of this model; the service reads a scheme name from it (services/grantservice/GrantService.go:83), and the model takes the scheme lookup's answer as an input.
- The field layouts of the Screen and Group models are not part of this model; they are taken as id, name and description for a screen, and name for a group.
- PermissionSchemeService.Update: whether the update body also carries the scheme id is not visible, so the body holds the name and description only.
