# AGOSH management system — a verified model of its core

AGOSH is a donation and student-care management system. A head office runs
branches. Each branch has a branch admin, who registers students and reports
needs. Donors give money either to a branch's general fund or to sponsor one
student, and they upload a payment receipt. The head office and the branch
admins review those donations.

This project models the parts of the system that decide what is stored and
what each user sees:

- the Express controllers: request checks, caller resolution from the
  `x-user-id` header, role guards, and the mapping from a service status to
  an HTTP code;
- the services over MongoDB: branches together with their admin users,
  donations, students, needs and the dashboards;
- the Mongoose schemas, with their `trim`/`lowercase` setters, `required`
  fields, enums and defaults;
- the receipt upload's file naming and filter;
- the React pages' pure logic: list filters, search, request bodies, form
  defaults, required-field checks, button sets, status labels, the chart
  buckets, and what each page's handlers do to its state.

Server records are typed Dafny datatypes. Where the client code is generic
over JavaScript objects, it works on a small `Json` value type (module `Js`)
that has JavaScript truthiness, `||`, `?.` and `===`. A stateful store or page
is a `class`; its methods carry `modifies` clauses and state its whole new
state. Pure logic is functions and lemmas.

Module map:

| file | module | models |
|---|---|---|
| common.dfy, js.dfy, seqs.dfy, text.dfy | Common, Js, Seqs, Text | service results, responses, JavaScript values, `filter`/`sort`/`limit`, `trim`/`toLowerCase`/`split`/`includes` |
| http.dfy, auth.dfy | Http, Auth | status-to-code `switch`, the `try`/`catch` wrapper, caller resolution |
| schemas.dfy, upload.dfy | Schemas, Upload | the Mongoose models; the multer file name and filter |
| branch_store.dfy, branch_api.dfy | Branches, BranchApi | branch service (branch + admin user, transaction) and controller |
| donation_store.dfy, donation_api.dfy, donation_gate.dfy | Donations, DonationApi, DonationGate | donation service, the plain controller and the role-checking controller |
| student_store.dfy, student_api.dfy | Students, StudentApi | student service and the two controller versions |
| need_store.dfy, need_api.dfy | Needs, NeedApi | need service and controller |
| dashboard.dfy, dashboard_gate.dfy | Dashboard, DashboardGate | dashboard service and the role-checking controllers |
| card.dfy, form_modal.dfy | Card, FormModal | the shared card and form dialog |
| branch_scope.dfy, branch_donations.dfy, needs_reporting.dfy, student_management.dfy | BranchScope, BranchDonations, NeedsReporting, StudentManagement | the branch admin's pages |
| branch_management.dfy, need_reports.dfy, donor_management.dfy, dashboard_pages.dfy | BranchManagement, NeedReports, DonorManagement, DashboardPages | the head admin's pages and the dashboards |
| explore_branches.dfy, branch_detail.dfy, donate_page.dfy, donor_donations.dfy | ExploreBranches, BranchDetail, DonatePage, DonorDonations | the public pages and the donor's own page |

## Model

| member | source | states |
|---|---|---|
| Http.FailureCode | server/src/controllers/branch.controller.js:125-160 | each failure status gets its own code: NOT_FOUND 404, BAD_REQUEST 400, FORBIDDEN 403, SERVER_ERROR 500, in both directions |
| Http.Switch | server/src/controllers/branch.controller.js:74-97 | a `switch` on the service status: SUCCESS gives the success response, a handled status passes the service message on with its code, any other status gets 500 "Unexpected error occurred" |
| Http.Settle | server/src/controllers/student.controller.js:81-88 | a returned result is answered; a thrown error becomes 500 "Internal Server Error" in the controllers with `try`/`catch`, and an unhandled rejection in the legacy ones |
| Http.VersionsAgreeUnlessThrown | server/controllers/student.controller.js:8-23 | the current and legacy controllers answer identically exactly when the service did not throw |
| Auth.Resolve | server/controllers/donation.controller.js:7-28 | a missing or empty header is unauthenticated, an id no user has is unknown, a known id yields exactly that user; a malformed id makes the lookup throw |
| Auth.EarlyResponse | server/controllers/donation.controller.js:9-28 | an unresolved caller is answered 401 (missing header), 404 "User not found." (unknown user) or 500 (the lookup threw) |
| Auth.MessageOr | server/controllers/donation.controller.js:50 | `message || fallback`: the message when it is non-empty, otherwise the fallback |
| DonationGate.CreateInput | server/controllers/donation.controller.js:77-84 | the created donation's donor is the caller's id, never a body field; the receipt is the uploaded path, else the body's; notes default to "" |
| DonationGate.Authorize | server/controllers/donation.controller.js:68-141 | per operation, both directions: create and list-by-donor only for DONOR, update for the two admin roles, delete only for HEAD_OFFICE_ADMIN, list-by-branch for the two admin roles, get-all and get-by-id for anyone; by-donor always queries the caller's own id |
| DonationGate.StatusResponse | server/controllers/donation.controller.js:32-53 | SUCCESS gives 200 with the data, NOT_FOUND 404, FORBIDDEN 403, every other status 500 with the message or "Server error." |
| DonationGate.OutcomeResponse | server/controllers/donation.controller.js:54-61 | a thrown error is answered 500 "Internal server error." |
| DonationGate.HandleDonationRequest | server/controllers/donation.controller.js:5-62 | 401 for a missing header, 404 for an unknown user, 403 with the guard's message for a refused role, otherwise the mapped service answer |
| DonationGate.UnresolvedCallerSkipsService | server/controllers/donation.controller.js:9-28 | when the caller cannot be resolved the answer does not depend on the service, so the operation never runs |
| DonationGate.OnlyHeadOfficeDeletes | server/controllers/donation.controller.js:103-113 | a delete call is made iff the caller is HEAD_OFFICE_ADMIN |
| DonationGate.CreatedByCaller | server/controllers/donation.controller.js:68-87 | a donation created through the controller belongs to the caller and starts PENDING |
| Schemas.ParseRole | server/models/User.js:15-19 | a role string is accepted exactly when it is HEAD_OFFICE_ADMIN, BRANCH_ADMIN or DONOR, each to its own role |
| Schemas.NormalizedEmailShape | server/models/User.js:7-13 | the stored email is trimmed and has no upper-case letter |
| Schemas.NewUser | server/models/User.js:3-33 | a user is created iff the trimmed name is non-empty, the normalised email is non-empty, the password has at least 6 characters and the role is in the enum; the stored name is the trimmed name, the email lower-cased and trimmed, the password as given, the role the parsed enum value, isActive defaults to true, branch, address and phoneNumber as given; otherwise the failing paths are reported |
| Schemas.NewBranch | server/src/models/Branch.js:3-14 | a branch is created iff name, phoneNumber and location are non-empty after trimming; each is stored as the trimmed input; admin is an optional reference |
| Schemas.NewDonation | server/src/models/Donation.js:3-39 | a donation is created iff donor, branch, amount and a non-empty receiptImage are given and any status is in the enum; any amount is accepted; donor, branch, amount and receiptImage are stored as given, status as given or PENDING, notes as given or "", createdAt is the creation time |
| Schemas.NewNeed | server/src/models/Need.js:2-44 | a need is created iff the trimmed title is 1..100 characters, the description 1..500, the trimmed quantityOrAmount 1..50, a branch is given and any status is in the enum; title and quantityOrAmount are stored trimmed, description, branch and fulfilledDate as given, status as given or PENDING |
| Schemas.NewStudent | server/models/Student.js:3-16 | a student is created iff the trimmed name is non-empty and a branch is given; the name is stored trimmed, branch, dateOfBirth and guardianName as given, and isActive defaults to true |
| Schemas.ParseGender | server/src/models/Student.js:14-17 | a gender is accepted exactly when it is Male, Female or Other |
| Schemas.NewProfile | server/src/models/Student.js:3-32 | a student is created iff the trimmed name is non-empty, a branch is given and an absent or enum gender; the name is stored trimmed, branch, dateOfBirth and guardianName as given, gender as the parsed enum value, contactNumber and address trimmed, isActive defaults to true and enrollmentDate to the creation time |
| Schemas.BlankNameRefused | server/models/User.js:6 | a whitespace-only name is refused, because `trim` runs before `required` |
| Schemas.EmailNormalFormIdempotent | server/models/User.js:7-13 | normalising a stored email again changes nothing, so addresses that differ only in case or surrounding spaces are stored alike |
| Text.TrimShape | server/models/User.js:6 | the `trim` setter removes whitespace from both ends and nothing else: the result is a contiguous piece of the input with no whitespace at either end |
| Text.TrimIdempotent | server/src/models/Branch.js:5-7 | trimming a trimmed value changes nothing |
| Text.TrimLowerCommute | server/models/User.js:11-12 | the `lowercase` and `trim` setters commute |
| Text.ContainsAt | client/src/pages/website/DonorExploreBranchesPage.jsx:67-71 | `includes` holds iff the needle occurs at some position of the text |
| Text.SplitJoin | client/src/pages/branchAdmin/StudentMangament.jsx:194-196 | `split` on one character loses nothing: joining the pieces gives the input back, and no piece holds the separator |
| Text.SplitHead | client/src/pages/branchAdmin/StudentMangament.jsx:194-196 | the first piece of a split is the text before the first separator, or the whole text when there is none |
| Seqs.Filter | client/src/pages/headAdmin/DonorManagementPage.jsx:27 | `Array.filter` keeps exactly the elements satisfying the predicate |
| Seqs.FilterIsSubsequence | client/src/pages/website/DonorExploreBranchesPage.jsx:67-71 | a filter result is an order-preserving subsequence of its input |
| Seqs.FilterPartition | client/src/pages/branchAdmin/BranchDonationsPage.jsx:326-330 | a filter and the filter by the complement split the input's elements between them |
| Seqs.SumSplits | client/src/pages/branchAdmin/BranchDonationsPage.jsx:320-324 | the sum over a list is the sum over the elements that pass plus the sum over those that fail |
| Seqs.NewestFirstSameElements | server/src/services/donation.services.js:44-48 | `sort({ createdAt: -1 })` over a creation-ordered collection keeps the same elements |
| Seqs.NewestFirstSorted | server/src/services/donation.services.js:44-48 | reversing a collection in increasing creation order gives strictly decreasing order |
| Seqs.RecentIsNewest | server/services/dashboard.services.js:23-31 | `sort({ createdAt: -1 }).limit(k)` holds at most k records, newest first, all from the collection, each newer than every record it leaves out |
| Seqs.IndexOf | server/services/student.services.js:26-39 | `findById`: the position of the record with the id, or none when no record has it |
| Upload.DigitsRoundTrip | server/middelwares/upload.js:10-14 | the decimal text of the upload time reads back as that time |
| Upload.ExtName | server/middelwares/upload.js:14 | `path.extname` is a suffix of the name, empty or a '.' followed by no '.' and no '/' |
| Upload.ExtNameOfStem | server/middelwares/upload.js:14 | the extension of `stem.ext` is `.ext` |
| Upload.FileName | server/middelwares/upload.js:9-16 | the stored name starts with the upload time and a dash and ends with the original extension |
| Upload.FileNameParts | server/middelwares/upload.js:9-16 | the stored file name starts with the upload time and a '-', and ends with the original file's extension |
| Upload.FileNameHead | server/middelwares/upload.js:9-16 | the stored file name split at its dashes starts with the upload time |
| Upload.FileNameKeepsExtension | server/middelwares/upload.js:9-16 | the stored file name ends with the original file's extension |
| Upload.DistinctTimesDistinctNames | server/middelwares/upload.js:9-16 | files stored at different times get different names |
| Upload.Accept | server/middelwares/upload.js:19-37 | a file is stored iff its MIME type is image/jpeg, image/png or image/jpg and it is at most 5*1024*1024 bytes; any other type is refused with "Only image files are allowed (jpeg, jpg, png)."; a stored file lands under uploads/ |
| Card.FollowAppend | client/src/components/ui/Card.jsx:2-3 | the dotted-path lookup follows the segments left to right |
| Card.MissingStaysUndefined | client/src/components/ui/Card.jsx:2-3 | once a segment is missing, the lookup stays undefined whatever follows |
| Card.MissingIntermediate | client/src/components/ui/Card.jsx:3 | a missing intermediate field yields undefined, not an error |
| Card.SingleSegment | client/src/components/ui/Card.jsx:2-3 | a path without a dot is a direct field lookup |
| Card.GetValue | client/src/components/ui/Card.jsx:2-3 | a path without a dot is a direct field lookup, and an undefined item gives undefined for every path |
| Card.DottedPath | client/src/components/ui/Card.jsx:2-3 | `getValue(obj, "a.rest")` is `getValue(obj.a, "rest")` |
| Card.FieldText | client/src/components/ui/Card.jsx:28 | a truthy looked-up value is shown as it is, a falsy one as "N/A" |
| Card.Title | client/src/components/ui/Card.jsx:5 | the title is `title`, else `name`, else "Untitled Branch" |
| Donations.Merge | server/src/services/donation.services.js:14-17 | an update keeps the record's id and creation time, and each of donor, branch, amount, receiptImage, status and notes takes the given value, else keeps the old one; no validator runs, so any status string is stored |
| Donations.MergeLaws | server/src/services/donation.services.js:14-27 | an empty update leaves the record unchanged and repeating an update changes nothing more |
| Donations.OrderedFilterNewestFirst | server/src/services/donation.services.js:73-78 | any query over the creation-ordered collection, reversed, is strictly newest first |
| Donations.GetAll | server/src/services/donation.services.js:44-54 | SUCCESS with exactly the stored donations (same multiset), newest `createdAt` first |
| Donations.GetById | server/src/services/donation.services.js:57-70 | SUCCESS iff some stored donation has the id, and then that donation; otherwise NOT_FOUND "Donation not found" |
| Donations.Matching | server/src/services/donation.services.js:87-92 | the donations satisfying a query, newest first |
| Donations.ByDonor | server/src/services/donation.services.js:73-84 | SUCCESS with exactly the donations of that donor, newest first |
| Donations.ByBranch | server/src/services/donation.services.js:87-99 | SUCCESS with exactly the donations of that branch, newest first |
| Donations.Without | server/src/services/donation.services.js:31 | after a delete the collection holds exactly the other records, still in creation order |
| Donations.DeleteThenGet | server/src/services/donation.services.js:30-41 | after a delete the id is not found, while every other id is found exactly as before |
| Donations.GetFindsStored | server/src/services/donation.services.js:57-70 | in an ordered collection a lookup by a stored record's id returns that record |
| Donations.ReceiptImage | server/controllers/donation.controller.js:82 | the uploaded file's path wins over the body's `receiptImage` |
| Donations.NotesOrEmpty | server/controllers/donation.controller.js:83 | notes are the body's non-empty notes, else "" |
| Donations.UpdatePatch | server/controllers/donation.controller.js:95-98 | the update carries the body unchanged, except that an uploaded file's path replaces `receiptImage` |
| Donations.CreatedPending | server/controllers/donation.controller.js:77-86 | the data a create hands over has no status, so every created donation is PENDING |
| Donations.DonationStore.Create | server/src/services/donation.services.js:5-11 | a valid record is appended with a fresh id and a later stamp and returned with SUCCESS; an invalid one makes the create throw and leaves the collection unchanged |
| Donations.DonationStore.Update | server/src/services/donation.services.js:14-27 | an unknown id gives NOT_FOUND with no change; otherwise only that record is replaced by the merge and returned |
| Donations.DonationStore.Delete | server/src/services/donation.services.js:30-41 | the collection loses exactly the record with the id; NOT_FOUND when there was none, else SUCCESS "Donation deleted successfully" |
| Students.Merge | server/services/student.services.js:49-53 | an update keeps the id and creation time, trims a new name, and each of branch, dateOfBirth, guardianName and isActive takes the given value, else keeps the old one |
| Students.MergeLaws | server/services/student.services.js:49-68 | an empty update leaves a stored record unchanged and repeating an update changes nothing more |
| Students.BlankNameStoredOnUpdate | server/services/student.services.js:51-53 | an update runs no validator, so a blank name is stored as "" |
| Students.CreateResult | server/services/student.services.js:4-12 | SUCCESS with the new record iff it passes validation; otherwise SERVER_ERROR with the validation message |
| Students.GetAll | server/services/student.services.js:15-23 | SUCCESS with every student, in stored order |
| Students.GetById | server/services/student.services.js:26-46 | SUCCESS iff some stored student has the id, and then that student; otherwise NOT_FOUND "Student not found" |
| Students.Without | server/services/student.services.js:73 | after a delete the collection holds exactly the other records, still in creation order |
| Students.CreateThenGet | server/services/student.services.js:4-46 | a record created with a fresh id is found under that id |
| Students.GetFindsStored | server/services/student.services.js:26-46 | in an ordered collection a lookup by a stored record's id returns that record |
| Students.StudentStore.Create | server/services/student.services.js:4-12 | the result is the create result; a valid record is appended, an invalid one leaves the collection unchanged |
| Students.StudentStore.Update | server/services/student.services.js:49-68 | an unknown id gives NOT_FOUND with no change; otherwise only that record is merged and returned |
| Students.StudentStore.Delete | server/services/student.services.js:71-88 | the collection loses exactly the record with the id, and the result is the lookup of that id before the delete (the removed record, or NOT_FOUND) |
| DonationApi.CreateInput | server/src/controllers/donation.controller.js:10-16 | the donor, branch and amount are the body's; the receipt is the uploaded file's path, else the body's; notes default to ""; no status is passed |
| DonationApi.Answer | server/src/controllers/donation.controller.js:17-34 | SUCCESS answers the success code with the data; any other status answers the endpoint's failure code with the service message; a throw answers 500 "Internal server error." |
| DonationApi.CreateDonation | server/src/controllers/donation.controller.js:8-35 | the service receives the input built from the body and file; 201 with the data iff the service returns SUCCESS, 400 with the service message for any other status, 500 on a throw |
| DonationApi.UpdateDonation | server/src/controllers/donation.controller.js:37-64 | the service receives the body unchanged except for an uploaded receipt; 200 with the data iff SUCCESS, 400 with the service message otherwise, 500 on a throw |
| DonationApi.DeleteDonation | server/src/controllers/donation.controller.js:66-86 | 204 iff SUCCESS, 404 with the service message otherwise, 500 on a throw; never any data |
| DonationApi.GetAllDonations | server/src/controllers/donation.controller.js:88-108 | success iff the service returns SUCCESS, answering 200 with the data; anything else answers 500 |
| DonationApi.GetOne | server/src/controllers/donation.controller.js:110-178 | for get-by-id, by-donor and by-branch, success iff SUCCESS (200 with the data); another status answers 404 with the service message, a throw 500 |
| DonationApi.GetByIdAgainstService | server/src/controllers/donation.controller.js:110-130 | against the service, 404 iff no stored donation has the id, and a 200 carries the donation with that id |
| DonationApi.ByDonorAgainstService | server/src/controllers/donation.controller.js:132-154 | against the service, listing by donor always answers 200 with exactly that donor's donations |
| Branches.StripAdmin | server/src/services/branch.services.js:60-66 | the `admin` key is removed from a branch update whatever its value, and the other fields are kept (the corrected guard) |
| Branches.ApplyBranchPatch | server/src/services/branch.services.js:65-66 | `Object.assign` then `save`: valid iff every given field is non-empty after trimming, else the failing paths are reported; the result keeps its id, and each of name, phoneNumber and location is the trimmed new value if given, else the old one |
| Branches.ApplyAdminPatch | server/src/services/branch.services.js:90-91 | `Object.assign` then the User validators on the admin: valid iff every given name, email, password and role passes its validator; the saved admin is well-formed and keeps its id; name is trimmed, email normalised, role parsed, and password, isActive, branch, address and phoneNumber take the given value, else the old one |
| Branches.PlanCreate | server/src/services/branch.services.js:6-42 | an invalid branch fails; without admin data only the branch is created and `admin` is null; with admin data a BRANCH_ADMIN user whose `branch` is the new branch is created and the branch's `admin` points to it; an invalid or duplicate admin fails the whole create |
| Branches.PlanUpdate | server/src/services/branch.services.js:45-109 | with the corrected `admin` guard (StripAdmin): unknown branch gives NOT_FOUND; an invalid branch patch gives SERVER_ERROR; a commit writes exactly the patched branch, whose `admin` link is unchanged, and, iff the admin part has keys, exactly the patched admin; BAD_REQUEST iff admin data comes for a branch with no admin, NOT_FOUND iff its admin is missing, the validation message iff the admin patch fails a validator, the duplicate-key message iff the patched email belongs to another user |
| Branches.View | server/src/services/branch.services.js:97-101 | a branch is shown with its admin user when the reference resolves, else with none |
| Branches.GetBranchById | server/src/services/branch.services.js:158-171 | NOT_FOUND "Branch not found" for an unknown id, otherwise SUCCESS with the branch and its admin |
| Branches.GetAllBranches | server/src/services/branch.services.js:145-155 | SUCCESS with every branch, each with its admin |
| Branches.WriteBranch | server/src/services/branch.services.js:65-66 | saving a well-formed branch keeps the collections consistent |
| Branches.WriteUser | server/src/services/branch.services.js:90-91 | saving a well-formed admin with an unused email keeps the collections consistent |
| Branches.BranchWritten | server/src/services/branch.services.js:12 | adding a new branch under the next id keeps the collections consistent |
| Branches.AdminWritten | server/src/services/branch.services.js:17-28 | adding a new admin and linking the branch to it keeps the collections consistent |
| Branches.RemoveBoth | server/src/services/branch.services.js:125-131 | removing a branch and its admin keeps the collections consistent |
| Branches.BranchStore.CreateBranch | server/src/services/branch.services.js:6-42 | the store commits exactly the planned branch and admin, or on failure answers SERVER_ERROR and leaves both collections unchanged |
| Branches.BranchStore.UpdateBranch | server/src/services/branch.services.js:45-109 | with the corrected `admin` guard (StripAdmin): the store commits exactly the planned branch and admin and answers the populated branch, or answers the failure and leaves both collections unchanged |
| Branches.BranchStore.DeleteBranch | server/src/services/branch.services.js:112-142 | an unknown id gives NOT_FOUND with no change; otherwise exactly the branch and its admin user are removed, no other record, and the branch is returned |
| Branches.CreatedBranchIsFound | server/src/services/branch.services.js:6-42 | right after a committed create with admin data, reading the new id shows the branch linked to its new admin |
| Branches.UpdatedBranchIsFound | server/src/services/branch.services.js:94-103 | right after a committed update, reading the branch shows the patched name, phoneNumber and location, the unchanged admin link, and the admin as saved with the new email |
| Branches.BlankAdminEmailIsInvalid | server/src/services/branch.services.js:90-107 | an admin email that is blank after trimming fails the `required` validator and answers SERVER_ERROR with the validation message |
| Branches.AdminCanBeMovedToAnotherBranch | server/src/services/branch.services.js:90-91 | an admin update carrying `branch` commits the admin under the given branch while the branch keeps its link to that admin |
| Branches.StripAdminAsWritten | server/src/services/branch.services.js:62-64 | the guard as written removes only a truthy `admin`, so `admin: null` is kept |
| Branches.NullAdminUnlinksBranch | server/src/services/branch.services.js:62-65 | as written, an update `{ admin: null }` clears the branch's admin link; with the corrected guard the link is kept |
| BranchApi.GetAllBranchesResponse | server/src/controllers/branch.controller.js:5-24 | 200 with the data on SUCCESS, 500 otherwise |
| BranchApi.GetBranchByIdResponse | server/src/controllers/branch.controller.js:27-60 | a missing id gives 400 before the service is asked; NOT_FOUND gives 404 |
| BranchApi.CreateBranchResponse | server/src/controllers/branch.controller.js:63-98 | without `branch` in the body 400 and the service is not called; SUCCESS 201, SERVER_ERROR 500 |
| BranchApi.UpdateBranchResponse | server/src/controllers/branch.controller.js:101-161 | a missing id gives 400; neither `branch` nor `admin` gives 400; SUCCESS 200, NOT_FOUND 404, BAD_REQUEST 400, SERVER_ERROR 500 |
| BranchApi.DeleteBranchResponse | server/src/controllers/branch.controller.js:164-201 | a missing id gives 400; SUCCESS 200 with a message and no data; NOT_FOUND 404 |
| BranchApi.GetByIdAgainstService | server/src/controllers/branch.controller.js:27-60 | against the service, 200 iff the branch exists, 404 iff not, and 200 carries the branch with its admin |
| BranchApi.UpdateAgainstPlan | server/src/controllers/branch.controller.js:123-161 | against the service, no update reaches the `default` case; 200 iff the update commits, 400 iff the branch has no admin to update, 404 iff something is not found |
| StudentApi.GetAllAnswer | server/controllers/student.controller.js:8-23 | SUCCESS gives 200 with the data, every other status 500 |
| StudentApi.GetByIdAnswer | server/src/controllers/student.controller.js:54-79 | SUCCESS gives 200 with the data; NOT_FOUND exactly gives 404; SERVER_ERROR and unrecognised statuses give 500 |
| StudentApi.CreateAnswer | server/src/controllers/student.controller.js:104-130 | SUCCESS gives 201 "Student created successfully" with the data; anything else 500 |
| StudentApi.UpdateAnswer | server/src/controllers/student.controller.js:156-192 | SUCCESS gives 200 "Student updated successfully"; NOT_FOUND exactly gives 404; anything else 500 |
| StudentApi.DeleteAnswer | server/src/controllers/student.controller.js:216-248 | SUCCESS gives 200 "Student deleted successfully" with no data; NOT_FOUND exactly gives 404; anything else 500 |
| StudentApi.GetStudentById | server/src/controllers/student.controller.js:42-90 | a missing id gives 400 before the service is asked; otherwise the mapped answer, or what a throw becomes in each version |
| StudentApi.GetAllStudents | server/src/controllers/student.controller.js:5-39 | a returned result gives 200 with its data iff SUCCESS, otherwise 500; a throw gives 500 in the current controller and is unhandled in the legacy one |
| StudentApi.GetAllAgainstService | server/controllers/student.controller.js:5-23 | against the student service, both controller versions answer 200 with every stored student in collection order |
| StudentApi.CreateStudent | server/src/controllers/student.controller.js:92-140 | a missing body gives 400 "student data is required" before the service is asked |
| StudentApi.UpdateStudentById | server/src/controllers/student.controller.js:142-202 | a missing id gives 400; the body goes to the service as it came |
| StudentApi.DeleteStudentById | server/src/controllers/student.controller.js:204-257 | a missing id gives 400; otherwise the mapped delete answer |
| StudentApi.GetByIdAgainstService | server/controllers/student.controller.js:27-60 | in both versions, against the service a lookup answers 404 iff no student has the id, 200 iff one has, with that student |
| StudentApi.CreateAgainstService | server/controllers/student.controller.js:63-98 | in both versions, against the service a create answers 201 iff the body passes the schema, with the stored record, and 500 otherwise |
| Needs.CreateResult | server/src/services/need.services.js:3-12 | SUCCESS iff the save succeeds and the data passes the schema, with the saved well-formed record; otherwise SERVER_ERROR "Failed to create need." |
| Needs.CreateKeepsGivenStatus | server/src/services/need.services.js:5-7 | a supplied status is stored as given, an absent one defaults to PENDING, fulfilledDate is stored as given |
| Needs.GetAll | server/src/services/need.services.js:14-22 | SUCCESS with every stored need in stored order, or SERVER_ERROR "Failed to retrieve needs." exactly when the read fails |
| Needs.NeedStore.Create | server/src/services/need.services.js:3-12 | the result is the create result; on success exactly that record is appended, on failure nothing is stored |
| NeedApi.CreateAnswer | server/src/controllers/need.controller.js:15-41 | SUCCESS gives 201 with the data and the message "Student created successfully"; SERVER_ERROR passes the message on with 500; anything else 500 |
| NeedApi.GetAllAnswer | server/src/controllers/need.controller.js:56-82 | SUCCESS gives 200 "Needs fetched successfully"; SERVER_ERROR passes the message on with 500 |
| NeedApi.GetAllNeeds | server/src/controllers/need.controller.js:52-90 | a response is always sent: 200 with the data iff SUCCESS, 500 otherwise, and 500 for a throw |
| NeedApi.CreateNeed | server/src/controllers/need.controller.js:4-50 | a missing body gives 400 "Need data is required" before the service is asked; a throw gives 500 "Internal Server Error" |
| NeedApi.CreateAgainstService | server/src/controllers/need.controller.js:14-41 | against the service, 201 iff the need was saved, otherwise 500 "Failed to create need." |
| NeedApi.GetAllAgainstService | server/src/controllers/need.controller.js:52-91 | against the service, 200 with every need iff the read succeeds, otherwise 500 "Failed to retrieve needs." |
| Dashboard.TotalAmount | server/services/dashboard.services.js:18-38 | `totalDonations[0]?.total \|\| 0` is the sum of `amount` over all donations whatever their status, 0 when there are none |
| Dashboard.AdminDashboardData | server/services/dashboard.services.js:8-45 | totalStudents, totalBranches and totalUsers are the collection sizes, totalDonations the sum of amounts, and each recent list holds min(n, 5) records |
| Dashboard.BranchDashboardData | server/services/dashboard.services.js:48-79 | the student count and donation sum include only that branch's records; branchDetails is the branch if it exists; each recent list holds min(5, the branch's record count) records, all of that branch |
| Dashboard.GetDashboardData | server/services/dashboard.services.js:82-104 | HEAD_OFFICE_ADMIN gets the admin view, BRANCH_ADMIN with a branch the view of that branch, BRANCH_ADMIN without one and every other role FORBIDDEN with their messages; a failing query SERVER_ERROR |
| Dashboard.RecentAreNewest | server/services/dashboard.services.js:23-31 | the recent lists are newest first, hold only stored records, and every record left out is older than every record shown |
| Dashboard.BranchRecentAreNewest | server/services/dashboard.services.js:62-66 | the branch view's recent lists are newest first, hold min(5, the branch's count) stored records of that branch, and every record of the branch left out is older than every record shown |
| Dashboard.BranchTotalsPartition | server/services/dashboard.services.js:56-60 | the branch totals plus those of the other records give the head-office totals |
| DashboardGate.AuthorizeDashboard | server/src/controllers/dashboard.controller.js:56-81 | the admin dashboard is called iff the caller is HEAD_OFFICE_ADMIN; the branch-admin dashboard iff the caller is BRANCH_ADMIN with a branch, for that branch; the donor dashboard iff the caller is DONOR, for the caller's own id |
| DashboardGate.RequestStatusResponse | server/src/controllers/dashboard.controller.js:30-45 | SUCCESS gives 200, FORBIDDEN 403, anything else 500 with the message or "Server error." |
| DashboardGate.HandleDashboardRequest | server/src/controllers/dashboard.controller.js:5-54 | a missing header gives 401 before any lookup, an unknown user 404, a refused role 403 with the guard's message, a throw 500; otherwise the mapped service answer |
| DashboardGate.DashboardStatusResponse | server/controllers/dashboard.controller.js:32-53 | SUCCESS gives 200, FORBIDDEN 403, SERVER_ERROR 500 with the service message, anything else 500 "An unexpected error occurred" |
| DashboardGate.GetDashboard | server/controllers/dashboard.controller.js:5-62 | a missing header gives 401, a failed lookup 500, an unknown user 404; otherwise the mapped answer of the dashboard service for that user |
| DashboardGate.DashboardByRole | server/src/controllers/dashboard.controller.js:83-140 | with no failing query, `getDashboard` answers 200 exactly for HEAD_OFFICE_ADMIN and for BRANCH_ADMIN with a branch, with their views, and 403 for every other caller |
| BranchDonations.TotalGeneralFund | client/src/pages/branchAdmin/BranchDonationsPage.jsx:320-324 | the general fund is 0 for an empty list and for a list of specific donations only |
| BranchDonations.GeneralFundPlusSpecific | client/src/pages/branchAdmin/BranchDonationsPage.jsx:320-324 | the general fund plus the specific donations' amounts is the sum of all amounts: a donation is general iff it has no student |
| BranchDonations.Filtered | client/src/pages/branchAdmin/BranchDonationsPage.jsx:326-330 | GENERAL keeps exactly the donations without a student, SPECIFIC exactly those with one, any other filter keeps the list as it is; order is preserved |
| BranchDonations.FiltersPartition | client/src/pages/branchAdmin/BranchDonationsPage.jsx:326-330 | the GENERAL and SPECIFIC results together are the ALL result, each donation in exactly one |
| BranchDonations.WithStatus | client/src/pages/branchAdmin/BranchDonationsPage.jsx:303-307 | only the donation with the matching id changes, and only its status |
| BranchDonations.LastSix | client/src/pages/branchAdmin/BranchDonationsPage.jsx:33-34 | `slice(-6)`: the last six characters, or the whole of a shorter id |
| BranchDonations.HeaderTitle | client/src/pages/branchAdmin/BranchDonationsPage.jsx:28-35 | the title is "Review Donation ID: " for a PENDING donation and "Details for Donation ID: " otherwise, followed by the id's last six characters |
| BranchDonations.ReviewIffPending | client/src/pages/branchAdmin/BranchDonationsPage.jsx:28-35 | the title says "Review" iff the donation is PENDING |
| BranchDonations.WithBranch | client/src/pages/branchAdmin/BranchDonationsPage.jsx:286-289 | viewing details replaces only the `branch` field, with the loaded branch |
| BranchDonations.DonationsBoard.ViewDetails | client/src/pages/branchAdmin/BranchDonationsPage.jsx:284-292 | the selected donation becomes the row with the loaded branch; the list is unchanged |
| BranchDonations.DonationsBoard.Act | client/src/pages/branchAdmin/BranchDonationsPage.jsx:294-318 | after an action the list is the status update of the old list and the open donation shows the new status |
| NeedReports.StatusLabel | client/src/pages/headAdmin/NeedReportsManagementPage.jsx:45-73 | APPROVED, REJECTED and FULFILLED each get their own label, in both directions; anything else reads Pending |
| NeedReports.Buttons | client/src/pages/headAdmin/NeedReportsManagementPage.jsx:147-185 | View and Delete are always offered; Approve (APPROVED, "Need approved.") and Reject (REJECTED, "Need rejected.") are added iff the row is PENDING, and no status change is offered otherwise |
| NeedReports.StatusBody | client/src/pages/headAdmin/NeedReportsManagementPage.jsx:110 | a status change sends a body whose only key is `status`, holding the new status |
| NeedReports.SuccessMessage | client/src/pages/headAdmin/NeedReportsManagementPage.jsx:113-117 | the success toast is the button's message, or "Status updated to <status>." without one |
| NeedsReporting.NeedsForBranch | client/src/pages/branchAdmin/NeedsReportingPage.jsx:45-47 | a missing list shows nothing; otherwise exactly the needs whose branch, populated id or raw id, is the user's branch, in list order |
| NeedsReporting.ReportsPage.StartEdit | client/src/pages/branchAdmin/NeedsReportingPage.jsx:66-77 | a non-PENDING row is refused with the error toast and the form state is unchanged; a PENDING row opens the form in edit mode on that row |
| NeedsReporting.ReportsPage.StartDelete | client/src/pages/branchAdmin/NeedsReportingPage.jsx:79-89 | a non-PENDING row is refused with the error toast and nothing is queued; a PENDING row queues its id and opens the confirmation |
| NeedsReporting.SubmitBody | client/src/pages/branchAdmin/NeedsReportingPage.jsx:118-124 | the body holds the three form fields and the user's branch, with status PENDING on add and the edited need's own status on edit |
| NeedsReporting.EditKeepsPending | client/src/pages/branchAdmin/NeedsReportingPage.jsx:66-124 | an edit opened on a PENDING need resubmits it as PENDING |
| NeedsReporting.Buttons | client/src/pages/branchAdmin/NeedsReportingPage.jsx:198-237 | edit and delete are wired to their handlers iff the row is PENDING; otherwise they only warn |
| NeedsReporting.StatusLabelAsWritten | client/src/pages/branchAdmin/NeedsReportingPage.jsx:159-181 | as written, no status ever gets the Fulfilled label |
| NeedsReporting.FulfilledShownAsPending | client/src/pages/branchAdmin/NeedsReportingPage.jsx:159-181 | as written, a FULFILLED need reads Pending on this page while the head office page reads Fulfilled |
| NeedsReporting.StatusLabel | client/src/pages/branchAdmin/NeedsReportingPage.jsx:159-181 | the corrected label: Pending exactly for statuses other than APPROVED, REJECTED and FULFILLED, and as written for every status but FULFILLED |
| BranchScope.KeyOfEitherForm | client/src/pages/branchAdmin/NeedsReportingPage.jsx:43 | a populated branch and a bare branch id give the same key; a missing user or branch gives undefined |
| BranchScope.StudentsOf | client/src/pages/branchAdmin/StudentMangament.jsx:48-50 | undefined exactly while the list is missing; otherwise exactly the students whose populated branch has the key, as a subsequence of the list |
| BranchScope.NeedScopeExact | client/src/pages/branchAdmin/NeedsReportingPage.jsx:45-47 | for a real branch id, a need is in scope iff its branch is that bare id or a populated branch with that id |
| BranchScope.StudentScopeExact | client/src/pages/branchAdmin/StudentMangament.jsx:48-50 | for a real branch id, a student is in scope iff its branch is populated with that id; a bare-id branch never matches |
| BranchScope.UndefinedKeyMatchesBareIds | client/src/pages/branchAdmin/NeedsReportingPage.jsx:43-47 | with no session user the need test still passes every need whose branch is a bare id |
| FormModal.Defaults | client/src/components/ui/FormModal.jsx:20-24 | the default state holds exactly the field names as keys |
| FormModal.DefaultsPerField | client/src/components/ui/FormModal.jsx:20-24 | with distinct names, each field starts at its own default value, or "" when that is falsy |
| FormModal.RequiredMessage | client/src/components/ui/FormModal.jsx:49 | the message names the field's label, or its name when it has no label, followed by " is required." |
| FormModal.FirstMissing | client/src/components/ui/FormModal.jsx:47-52 | the result is the first required field holding a falsy value, and none means no such field exists |
| FormModal.Form.constructor | client/src/components/ui/FormModal.jsx:16-26 | the opened form holds the defaults overlaid with the initial data, and no error |
| FormModal.Form.Change | client/src/components/ui/FormModal.jsx:29-36 | a file input stores its first file, any other input its value, under its name; nothing else changes |
| FormModal.Form.Choose | client/src/components/ui/FormModal.jsx:39-41 | a dropdown stores the chosen value under its name; nothing else changes |
| FormModal.Form.Submit | client/src/components/ui/FormModal.jsx:44-56 | with a required field left empty, nothing is submitted and the error names the first such field; otherwise the error is cleared and the form data is submitted unchanged |
| FormModal.FirstMissingIs | client/src/components/ui/FormModal.jsx:47-52 | a left-to-right scan stops at the first missing field |
| FormModal.ChangeKeepsOthers | client/src/components/ui/FormModal.jsx:32-40 | a change sets its own key and keeps every other key |
| DonatePage.TargetOf | client/src/pages/website/DonatePage.jsx:42-43 | a missing navigation state, or one that is not an object, leaves every part undefined; each of branchId, branchName, studentId, studentName and donationType is the state's own member |
| DonatePage.Mount | client/src/pages/website/DonatePage.jsx:56-64 | the page redirects to the branch list with an error toast iff the branch id is falsy, and otherwise fetches that branch |
| DonatePage.Body | client/src/pages/website/DonatePage.jsx:96-106 | the body holds the numeric amount, the receipt URL, the placeholder donor, the branch and the category, and holds studentRecipient iff the target names a student |
| DonatePage.ReceiptNameRecoverable | client/src/pages/website/DonatePage.jsx:96-97 | the receipt URL is the fixed prefix followed by the file name, so the name can be read back |
| DonatePage.TargetText | client/src/pages/website/DonatePage.jsx:137-140 | a SPECIFIC_STUDENT target names the student; any other target names the branch's general fund |
| DonatePage.TargetTextNamesStudent | client/src/pages/website/DonatePage.jsx:137-140 | the text opens with the sponsoring line iff the target is one student |
| DonatePage.DonateForm.constructor | client/src/pages/website/DonatePage.jsx:46-53 | the form starts empty, with no toast, no payment details and loading |
| DonatePage.DonateForm.BranchLoaded | client/src/pages/website/DonatePage.jsx:64-80 | the payment details are kept when the payload has them; otherwise the matching error toast is shown; loading ends either way and the form is untouched |
| DonatePage.DonateForm.Submit | client/src/pages/website/DonatePage.jsx:84-134 | nothing is sent iff the amount is not positive or no receipt is chosen (a warning is shown); otherwise the body is sent, and success clears the form and goes to the success page while a rejection or a throw keeps the form and shows its error |
| BranchDetail.FilterAsWritten | client/src/pages/website/BranchDetailPage.jsx:61-63 | the filter throws iff some student has a null or missing branch, and otherwise keeps the students whose populated branch has the route id |
| BranchDetail.StudentsForBranchAsWritten | client/src/pages/website/BranchDetailPage.jsx:61-63 | undefined while the list is missing; otherwise the page throws iff some student's branch is unreadable |
| BranchDetail.AsWrittenAgreesWhenReadable | client/src/pages/website/BranchDetailPage.jsx:61-63 | where every student's branch is readable, the page as written lists what the guarded filter lists |
| BranchDetail.OrphanedStudentBreaksPage | client/src/pages/website/BranchDetailPage.jsx:61-63 | one student whose branch was deleted makes the page throw, where the guarded filter leaves that student out |
| BranchDetail.StudentCount | client/src/pages/website/BranchDetailPage.jsx:174 | the total is 0 while the list is missing and the list's length otherwise |
| BranchDetail.PaymentOf | client/src/pages/website/BranchDetailPage.jsx:103 | without payment details every bank field is undefined; otherwise each is the details' own member |
| BranchDetail.DirectDonateIsGeneral | client/src/pages/website/BranchDetailPage.jsx:105-116 | a direct donation reaches the form as a GENERAL donation to this branch with no student recipient, titled with the branch's general fund |
| BranchDetail.SponsorIsSpecific | client/src/pages/website/BranchDetailPage.jsx:118-131 | sponsoring a student reaches the form as a SPECIFIC_STUDENT donation naming that student as recipient |
| BranchDetail.DirectDonateState | client/src/pages/website/BranchDetailPage.jsx:105-116 | the state names the branch by id and name, is GENERAL, carries the payment details and no student |
| BranchDetail.SponsorState | client/src/pages/website/BranchDetailPage.jsx:118-131 | the state names the branch and the given student, is SPECIFIC_STUDENT and carries the payment details |
| ExploreBranches.FilteredBranches | client/src/pages/website/DonorExploreBranchesPage.jsx:67-71 | undefined exactly while the list is missing; otherwise exactly the branches whose lowercased name or location contains the lowercased term, in list order, and every branch for an empty term |
| ExploreBranches.SearchIgnoresCase | client/src/pages/website/DonorExploreBranchesPage.jsx:67-71 | a term and its lowercase find the same branches |
| ExploreBranches.Actions | client/src/pages/website/DonorExploreBranchesPage.jsx:38-52 | Explore opens the branch's own page; Donate opens the donation form carrying only the branch id and name |
| ExploreBranches.DonateFromCard | client/src/pages/website/DonorExploreBranchesPage.jsx:44-51 | donating from a card makes the form fetch that branch and post a body for that branch with no student and no category, titled with the branch's general fund |
| BranchManagement.PaymentInfo | client/src/pages/headAdmin/BranchManagement.jsx:109-113 | the payment details hold exactly the three bank fields, each as typed |
| BranchManagement.BranchData | client/src/pages/headAdmin/BranchManagement.jsx:105-114 | the branch object holds exactly name, location, phone and the payment details, each as typed |
| BranchManagement.EditAdmin | client/src/pages/headAdmin/BranchManagement.jsx:131-134 | an edit's admin holds name and email, and the password iff one was typed |
| BranchManagement.BranchesPage.constructor | client/src/pages/headAdmin/BranchManagement.jsx:35-41 | the page starts in add mode with nothing selected, the form closed and no toast |
| BranchManagement.BranchesPage.Submit | client/src/pages/headAdmin/BranchManagement.jsx:87-167 | an add posts the branch with the full admin; an edit updates the selected branch, its admin carrying exactly the typed name and email and the typed password iff one was typed; success closes the form with the mode's message, failure keeps it open with the error |
| BranchManagement.PasswordField | client/src/pages/headAdmin/BranchManagement.jsx:243-259 | the password field is required iff the form is adding |
| BranchManagement.GetFormFields | client/src/pages/headAdmin/BranchManagement.jsx:199-261 | the fields are the common fields followed by the mode's password field |
| BranchManagement.InitialData | client/src/pages/headAdmin/BranchManagement.jsx:262-278 | an edit with a selected branch starts from that branch's fields and its admin's name and email; otherwise the form starts empty |
| BranchManagement.EditPaymentDefaults | client/src/pages/headAdmin/BranchManagement.jsx:269-271 | a bank detail of an edit is the stored truthy value or "" |
| BranchManagement.EditOfCompleteBranchSubmits | client/src/pages/headAdmin/BranchManagement.jsx:199-278 | a branch with name, location, phone and an admin name and email opens in edit mode with a form that submits unchanged |
| BranchManagement.BlankPasswordBlocksAdd | client/src/pages/headAdmin/BranchManagement.jsx:243-250 | adding without a password is stopped at the password field, after every other field |
| BranchManagement.BlankPasswordKeepsEdit | client/src/pages/headAdmin/BranchManagement.jsx:250-259 | editing with the password left blank submits |
| StudentManagement.SameListForEitherForm | client/src/pages/branchAdmin/StudentMangament.jsx:46-50 | a session user whose branch is populated and one whose branch is a bare id see the same students: those whose populated branch has that id |
| StudentManagement.CleanGender | client/src/pages/branchAdmin/StudentMangament.jsx:97-100 | an object with a truthy `target` gives the target's value; any other value is kept as it is |
| StudentManagement.RequiredFields | client/src/pages/branchAdmin/StudentMangament.jsx:171-188 | the form has six fields, and exactly the name and the gender are required |
| StudentManagement.CleanGenderOfEvent | client/src/pages/branchAdmin/StudentMangament.jsx:97-100 | a change event carrying a plain value cleans to that value, and cleaning again keeps it |
| StudentManagement.SubmitBody | client/src/pages/branchAdmin/StudentMangament.jsx:102-110 | the body holds exactly the six form fields and the branch, the branch being the session user's own and the gender cleaned |
| StudentManagement.StudentsPage.constructor | client/src/pages/branchAdmin/StudentMangament.jsx:94-95 | the page starts in add mode with nothing selected, the form closed and no toast |
| StudentManagement.StudentsPage.Submit | client/src/pages/branchAdmin/StudentMangament.jsx:94-140 | an add posts the body and an edit updates the selected student with it; success closes the form with the mode's message, a rejection keeps it open with the error, and a throw leaves the page submitting |
| StudentManagement.DateInput | client/src/pages/branchAdmin/StudentMangament.jsx:194-196 | a stored date shows as the part before its first "T", a missing one as "", and a truthy non-string throws |
| StudentManagement.DateInputOfIso | client/src/pages/branchAdmin/StudentMangament.jsx:194-196 | an ISO timestamp shows as its date part and a bare date as itself |
| StudentManagement.InitialData | client/src/pages/branchAdmin/StudentMangament.jsx:190-204 | an edit with a selected student starts from its six fields, missing ones as "" and the date cut to its date part, and throws iff the date does; otherwise the form starts empty |
| StudentManagement.EditStartsDefined | client/src/pages/branchAdmin/StudentMangament.jsx:192-201 | no field of an edit other than the date starts undefined: each is a truthy stored value or "" |
| DashboardPages.MonthlyCounts | client/src/pages/admin/AdminDashboard.jsx:105-123 | twelve buckets, each the number of recent students created in that month, all zero without a list; the buckets add up to the number of recent students |
| DashboardPages.StatValues | client/src/pages/headAdmin/AdminDashboard.jsx:79-100 | one card per total, in card order, each the total when it is truthy and 0 otherwise |
| DashboardPages.MissingTotalsShowZero | client/src/pages/headAdmin/AdminDashboard.jsx:79-100 | no card is blank: each shows a truthy total or 0, and every card shows 0 before the data arrives |
| DashboardPages.DashboardPage.constructor | client/src/pages/headAdmin/AdminDashboard.jsx:24-26 | a dashboard starts loading, with no data and no error |
| DashboardPages.DashboardPage.Load | client/src/pages/admin/AdminDashboard.jsx:29-61 | without a stored user or its id the page reports the missing user and sends nothing; otherwise the request carries the user's id, a successful reply sets the data, and a failed reply or a thrown error sets its message (the admin page also clearing the other field); loading ends either way |
| DonorManagement.DonorList | client/src/pages/headAdmin/DonorManagementPage.jsx:27 | an empty list while the users are missing; otherwise exactly the users whose role is DONOR, in list order |
| DonorManagement.DonorsAndOthers | client/src/pages/headAdmin/DonorManagementPage.jsx:27 | the donors shown and the other users together are the users, nothing lost or repeated |
| DonorDonations.ResourceKey | client/src/pages/donorAdmin/DonationPage.jsx:31 | a key exists iff there is a stored user, and it is the donor-specific path with the user's id |
| DonorDonations.Donations | client/src/pages/donorAdmin/DonationPage.jsx:32 | the page shows the list cached under the user's key, or an empty list when none is cached; without a user it reads the key "null" |
| DonorDonations.Fetches | client/src/pages/donorAdmin/DonationPage.jsx:34-39 | the branches are always fetched last, and the donor's own list is fetched first iff there is a user |
| DonorDonations.Body | client/src/pages/donorAdmin/DonationPage.jsx:86-92 | the body holds exactly branch, amount and receipt as typed, the notes or "", and the session user's id as donor |
| DonorDonations.NotesDefaultEmpty | client/src/pages/donorAdmin/DonationPage.jsx:90 | the notes sent are "" or the truthy notes typed, never undefined |
| DonorDonations.DonationsPage.constructor | client/src/pages/donorAdmin/DonationPage.jsx:21-28 | the page starts in add mode with nothing selected, the form closed and no toast |
| DonorDonations.DonationsPage.Submit | client/src/pages/donorAdmin/DonationPage.jsx:82-132 | nothing is sent iff there is no stored user, which ends in the unexpected-error toast; otherwise an add posts to the create path and an edit updates the selected donation, success closing the form with the mode's message and failure keeping it open with the error |
| DonorDonations.InitialData | client/src/pages/donorAdmin/DonationPage.jsx:178-187 | an edit with a selected donation starts from its branch id, amount and notes, with no receipt; otherwise the form starts empty |
| DonorDonations.ReceiptDefaultEmpty | client/src/pages/donorAdmin/DonationPage.jsx:162-176 | the form's own default for the receipt is "" |
| DonorDonations.RequiredFields | client/src/pages/donorAdmin/DonationPage.jsx:162-176 | the form has four fields, and exactly branch, amount and receipt are required |
| DonorDonations.ReceiptMessage | client/src/pages/donorAdmin/DonationPage.jsx:174 | a missing receipt is reported as "Receipt is required." |
| DonorDonations.EditStopsAtReceipt | client/src/pages/donorAdmin/DonationPage.jsx:162-187 | over any defaults that leave the receipt empty, an edit of a donation with a branch and an amount stops at the receipt |
| DonorDonations.EditNeedsNewReceipt | client/src/pages/donorAdmin/DonationPage.jsx:162-187 | an edit of a donation with a truthy branch id and amount stops exactly at the receipt, the third field |
| DonorDonations.EditNeverSubmitsWithoutReceipt | client/src/pages/donorAdmin/DonationPage.jsx:162-187 | an edit is refused until a new receipt is chosen, whatever the selected donation holds |

## Left out

- MongoDB itself is not modelled: connections, `populate`, ObjectId casting and cast errors. A store is an in-memory `seq` or `map`. Ids are natural numbers, and the creation time is a counter kept by the store.
- The branch service's transactions are modelled only as all-or-nothing: a write either commits every change or leaves both maps as they were. Sessions and concurrent writers are not modelled.
- Only the branch store's admin writes check the unique index on `User.email`. Elsewhere, the `normalise` functions model only how an email is normalised.
- A database failure that the inputs cannot determine is modelled only where the code reports it distinctly: `saveFails` and `readFails` in the need service, and a thrown outcome in the controllers. Other storage failures are not modelled.
- Students.GetAll: the SERVER_ERROR answer of `getAllStudents` for a failed read is not modelled; the read always succeeds.
- Students.GetById: the SERVER_ERROR answer for a malformed id is not modelled; only NOT_FOUND is.
- Students.CreateResult: the validation error's message is the fixed prefix "Student validation failed", without Mongoose's per-path details.
- Donations.UpdatePatch: update bodies are typed (ids are ids, `amount` an integer), so a value that `findByIdAndUpdate` would fail to cast cannot be expressed. A `status` outside the enum can be, and is stored as given, since no validators run.
- ExploreBranches.FilteredBranches: lower-casing folds only the ASCII letters A-Z. JavaScript's `toLowerCase` folds every Unicode letter, so a search such as "çankaya" finds "ÇANKAYA" in the page but not in the model.
- Schemas.NormalizedEmailShape: "no upper-case letter" is about ASCII letters only, for the same reason. Mongoose's `lowercase` setter folds every Unicode letter.
- Schemas.NewUser: the stored email is lower-cased in ASCII only, so two emails that differ only in a non-ASCII letter's case are two addresses in the model and one in the database.
- Branches.AdminPatch: the admin part of an update is typed, so a value that fails to cast, such as an `isActive` that is not a boolean, cannot be expressed.
- Upload.ExtName: a name that ends in "/" gives "" here, while `path.extname` first drops trailing slashes ("a.png/" gives ".png"). Browsers never send such a file name.
- DonorDonations.DonationsPage.Submit: the `fetchResources` refetch after a successful submit is not modelled; only the toast and the closed form are.
- Js.Member: every primitive has no members here, while JavaScript strings have some, such as `length`. No key the pages read reaches that case.
- Cloudinary and the `createUser` helper are not part of this model. Admin users are built through the User schema instead.
- The donor dashboard service, which the newer dashboard controller calls, is not part of this model. Only its role guard and status mapping are modelled.
- Upload: `Date.now()` and `Math.round(Math.random() * 1e9)` are parameters. Writing the file to disk, and how Express reports a rejected upload, are not modelled.
- React rendering, toast timers, `setTimeout` delays, navigation timing, the loading spinners and the `isActionLoading` flag are not modelled. The data a page hands to its UI components is.
- `localStorage`, `fetch`, the Redux store and the request thunks become inputs. A page method receives the settled reply (`Reply`/`Fetch`) as a parameter.
- JavaScript numbers are integers here. Floating point amounts, locale formatting of currency and month names, and `Date` parsing are not modelled: a recent student's month is given as 0..11.
- `===` on objects compares identity in JavaScript. The model treats two objects as never strictly equal, which is what the page code relies on.
- Pressing a page's delete button only opens a confirm dialog, and the confirmed delete (`confirmDelete`) then sends the request. Both, and the toasts after a submit on the branch admin's need page, are not modelled. The guards that decide whether a delete may be queued are modelled.
- NeedReports.SuccessMessage: only the toast's text after a status change is modelled, not the list refresh that follows.
- NeedApi.CreateAnswer: the success message is kept as the code has it, "Student created successfully", although the endpoint creates a need.
- BranchDonations.DonationsBoard.Act: with no donation selected, the page sets `selectedDonation` to an object holding only `status`. The model keeps no selection, since that object is not a donation.
- StudentManagement.SubmitBody: without a stored session user, `user.branch` throws. The model reads the branch as undefined instead.
- DonatePage.DonateForm.Submit: the amount is the number input's value as a number, with an empty input read as 0. Text that is not a number is not modelled.

## Findings

| source | as written | input that shows it | evidently intended | confidence | as-written member | corrected member |
|---|---|---|---|---|---|---|
| server/src/services/branch.services.js:60-66 | the update strips `admin` from the branch data only when it is truthy | an update whose branch data is `{ admin: null }` clears the branch's admin link | an update can never re-point or clear `branch.admin` | high, not executed | Branches.StripAdminAsWritten | Branches.StripAdmin |
| client/src/pages/branchAdmin/NeedsReportingPage.jsx:159-181 | the status label has no FULFILLED case | a need with status FULFILLED reads "Pending" on the branch admin's page | FULFILLED reads Fulfilled, as on the head office page | high, not executed | NeedsReporting.StatusLabelAsWritten | NeedsReporting.StatusLabel |
| client/src/pages/website/BranchDetailPage.jsx:61-63 | `student.branch._id` is read without `?.` | a student whose branch was deleted (`branch: null` after populate; deleting a branch does not delete its students) makes the page throw | such a student is left out, as the branch admin's student page does with `student.branch?._id` | medium, not executed | BranchDetail.StudentsForBranchAsWritten | BranchScope.StudentsOf |
